/** Fixed-window rate limiting and try-acquire semaphores. */
module RateLimit {
  import opened Spacing

  /** The zero time; a bucket that starts there is no bucket. The clock never shows it. */
  const ZERO_TIME: int := 0

  datatype Bucket = Bucket(start: int, count: int)

  const NO_BUCKET := Bucket(ZERO_TIME, 0)

  datatype Rate = Rate(limit: int, window: int)

  // ---------------------------------------------------------- one key at a time

  predicate Expired(b: Bucket, rate: Rate, now: int) {
    b.start == ZERO_TIME || now - b.start >= rate.window
  }

  predicate Admits(b: Bucket, rate: Rate, now: int) {
    Expired(b, rate, now) || b.count < rate.limit
  }

  function NextBucket(b: Bucket, rate: Rate, now: int): Bucket {
    if Expired(b, rate, now) then Bucket(now, 1)
    else if b.count >= rate.limit then b
    else Bucket(b.start, b.count + 1)
  }

  /** The bucket of a key after calls at the given times. */
  function After(times: seq<int>, rate: Rate): Bucket {
    if times == [] then NO_BUCKET else NextBucket(After(times[..|times| - 1], rate), rate, times[|times| - 1])
  }

  /** The decisions for the calls of one key. */
  function Decisions(times: seq<int>, rate: Rate): (r: seq<bool>)
    ensures |r| == |times|
  {
    if times == [] then []
    else Decisions(times[..|times| - 1], rate) + [Admits(After(times[..|times| - 1], rate), rate, times[|times| - 1])]
  }

  /** The times of the admitted calls. */
  function Admitted(times: seq<int>, rate: Rate): seq<int> {
    if times == [] then []
    else
      var front, t := times[..|times| - 1], times[|times| - 1];
      if Admits(After(front, rate), rate, t) then Admitted(front, rate) + [t] else Admitted(front, rate)
  }

  /** The times at which windows were opened. */
  function Openings(times: seq<int>, rate: Rate): seq<int> {
    if times == [] then []
    else
      var front, t := times[..|times| - 1], times[|times| - 1];
      if Expired(After(front, rate), rate, t) then Openings(front, rate) + [t] else Openings(front, rate)
  }

  /** A clock that does not go back. */
  predicate Clocked(times: seq<int>) {
    Rising(times) && forall i | 0 <= i < |times| :: times[i] > ZERO_TIME
  }

  predicate Sane(rate: Rate) {
    rate.limit >= 1 && rate.window > 0
  }

  /** The current bucket is the last window opened, with its admissions at the end of the list. */
  predicate BucketFits(times: seq<int>, rate: Rate) {
    var b, admitted, openings := After(times, rate), Admitted(times, rate), Openings(times, rate);
    if times == [] then b == NO_BUCKET && admitted == [] && openings == []
    else
      && openings != [] && openings[|openings| - 1] == b.start && 0 < b.start <= times[|times| - 1]
      && 1 <= b.count <= rate.limit && b.count <= |admitted|
      && (forall i | |admitted| - b.count <= i < |admitted| :: b.start <= admitted[i] < b.start + rate.window)
      && (forall i | 0 <= i < |admitted| - b.count :: admitted[i] < b.start)
      && (forall i | 0 <= i < |admitted| :: admitted[i] <= times[|times| - 1])
      && (forall i | 0 <= i < |openings| :: openings[i] <= b.start)
  }

  lemma {:induction false} BucketAlwaysFits(times: seq<int>, rate: Rate)
    requires Clocked(times) && Sane(rate)
    ensures BucketFits(times, rate)
  {
    if times != [] {
      BucketAlwaysFits(times[..|times| - 1], rate);
    }
  }

  lemma {:induction false} OpeningsSpaced(times: seq<int>, rate: Rate)
    requires Clocked(times) && Sane(rate)
    ensures Spaced(Openings(times, rate), rate.window)
  {
    if times != [] {
      var front := times[..|times| - 1];
      OpeningsSpaced(front, rate);
      BucketAlwaysFits(front, rate);
    }
  }

  /** n admissions in an interval, against the k windows opened in it and the current bucket. */
  predicate ChargedWith(b: Bucket, rate: Rate, lo: int, hi: int, k: nat, n: nat) {
    if b.start == ZERO_TIME then n == 0
    else if lo <= b.start < hi then n <= rate.limit * k + b.count
    else if b.start < lo then n <= b.count
    else n <= rate.limit * k + rate.limit
  }

  predicate Charged(times: seq<int>, rate: Rate, lo: int, hi: int) {
    ChargedWith(After(times, rate), rate, lo, hi, CountIn(Openings(times, rate), lo, hi), CountIn(Admitted(times, rate), lo, hi))
  }

  /** One more call, in numbers: k windows opened and n admissions before it. */
  lemma ChargeStep(b: Bucket, after: Bucket, rate: Rate, lo: int, hi: int, now: int, k: nat, k': nat, n: nat, n': nat)
    requires Sane(rate) && now > ZERO_TIME && after == NextBucket(b, rate, now) &&
      (b.start <= now || b.start == ZERO_TIME) && 0 <= b.count <= rate.limit
    requires k' == k + (if Expired(b, rate, now) && lo <= now < hi then 1 else 0)
    requires n' == n + (if Admits(b, rate, now) && lo <= now < hi then 1 else 0)
    requires now < lo ==> n' == 0
    requires ChargedWith(b, rate, lo, hi, k, n)
    ensures ChargedWith(after, rate, lo, hi, k', n')
  {
    assert rate.limit * (k + 1) == rate.limit * k + rate.limit;
    assert rate.limit * k >= 0;
  }

  /** One call more, in the histories. */
  lemma HistoryStep(times: seq<int>, rate: Rate, lo: int, hi: int)
    requires times != []
    ensures var front, now := times[..|times| - 1], times[|times| - 1]; var b := After(front, rate);
      && After(times, rate) == NextBucket(b, rate, now)
      && CountIn(Openings(times, rate), lo, hi) ==
           CountIn(Openings(front, rate), lo, hi) + (if Expired(b, rate, now) && lo <= now < hi then 1 else 0)
      && CountIn(Admitted(times, rate), lo, hi) ==
           CountIn(Admitted(front, rate), lo, hi) + (if Admits(b, rate, now) && lo <= now < hi then 1 else 0)
  {
    hide Expired, Admits, NextBucket, CountIn;
    var front, now := times[..|times| - 1], times[|times| - 1];
    CountPush(Openings(front, rate), now, lo, hi);
    CountPush(Admitted(front, rate), now, lo, hi);
  }

  lemma Bounds(times: seq<int>, rate: Rate, now: int, lo: int, hi: int)
    requires Clocked(times) && Sane(rate) && forall i | 0 <= i < |times| :: times[i] <= now
    ensures After(times, rate).start <= now || After(times, rate).start == ZERO_TIME
    ensures 0 <= After(times, rate).count <= rate.limit
    ensures now < lo ==> CountIn(Admitted(times, rate), lo, hi) == 0
  {
    hide After, Openings, Admitted;
    BucketAlwaysFits(times, rate);
    if now < lo {
      CountNone(Admitted(times, rate), lo, hi);
    }
  }

  lemma {:induction false} AdmissionsCharged(times: seq<int>, rate: Rate, lo: int, hi: int)
    requires Clocked(times) && Sane(rate)
    ensures Charged(times, rate, lo, hi)
  {
    hide ChargedWith, Sane, CountIn, Expired, Admits, NextBucket;
    if times == [] {
      NothingCharged(rate, lo, hi);
    } else {
      hide After, Admitted, Openings;
      var front, now := times[..|times| - 1], times[|times| - 1];
      AdmissionsCharged(front, rate, lo, hi);
      HistoryStep(times, rate, lo, hi);
      Bounds(front, rate, now, lo, hi);
      Bounds(times, rate, now, lo, hi);
      ChargeStep(After(front, rate), After(times, rate), rate, lo, hi, now,
                 CountIn(Openings(front, rate), lo, hi), CountIn(Openings(times, rate), lo, hi),
                 CountIn(Admitted(front, rate), lo, hi), CountIn(Admitted(times, rate), lo, hi));
    }
  }

  lemma NothingCharged(rate: Rate, lo: int, hi: int)
    ensures Charged([], rate, lo, hi)
  {
  }

  /** No key gets more than (n+1) times the limit in n windows' time. */
  lemma BurstBound(times: seq<int>, rate: Rate, lo: int, n: nat)
    requires Clocked(times) && Sane(rate)
    ensures CountIn(Admitted(times, rate), lo, lo + n * rate.window) <= (n + 1) * rate.limit
  {
    var hi := lo + n * rate.window;
    var windows := CountIn(Openings(times, rate), lo, hi);
    AdmissionsCharged(times, rate, lo, hi);
    OpeningsSpaced(times, rate);
    SpacedCount(Openings(times, rate), rate.window, lo, n);
    BucketAlwaysFits(times, rate);
    ChargeTotal(After(times, rate), rate, lo, hi, windows, CountIn(Admitted(times, rate), lo, hi), n);
  }

  lemma ChargeTotal(b: Bucket, rate: Rate, lo: int, hi: int, k: nat, admitted: nat, n: nat)
    requires Sane(rate) && ChargedWith(b, rate, lo, hi, k, admitted) && k <= n && b.count <= rate.limit
    ensures admitted <= (n + 1) * rate.limit
  {
    assert rate.limit * k <= rate.limit * n;
    assert (n + 1) * rate.limit == rate.limit * n + rate.limit;
    assert rate.limit * n >= 0;
  }

  /** A call is denied exactly when the window that is open since less than its length has had its full number of admissions. */
  lemma DenialJustified(times: seq<int>, rate: Rate, now: int)
    requires Clocked(times + [now]) && Sane(rate)
    ensures var b, admitted := After(times, rate), Admitted(times, rate);
      !Admits(b, rate, now) <==>
        b.start in Openings(times, rate) && now - b.start < rate.window && CountIn(admitted, b.start, now + 1) == rate.limit
    ensures var b, admitted := After(times, rate), Admitted(times, rate);
      !Admits(b, rate, now) ==>
        |admitted| >= rate.limit &&
        forall i | |admitted| - rate.limit <= i < |admitted| :: now - rate.window < b.start <= admitted[i] <= now
  {
    hide CountIn, Admitted, Openings, After;
    assert Clocked(times) && (times != [] ==> times[|times| - 1] <= now) by {
      var all := times + [now];
      assert forall i | 0 <= i < |times| :: all[i] == times[i];
      assert all[|times|] == now;
    }
    BucketAlwaysFits(times, rate);
    var b, admitted := After(times, rate), Admitted(times, rate);
    if times != [] {
      if now - b.start < rate.window {
        CountTail(admitted, |admitted| - b.count, b.start, now + 1);
      }
    } else {
      NothingOpened(rate);
    }
  }

  lemma NothingOpened(rate: Rate)
    ensures Openings([], rate) == []
  {
  }

  /** Times that are in the interval from index k on, and below it before. */
  lemma {:induction false} CountTail(times: seq<int>, k: nat, lo: int, hi: int)
    requires k <= |times|
    requires forall i | 0 <= i < k :: times[i] < lo
    requires forall i | k <= i < |times| :: lo <= times[i] < hi
    ensures CountIn(times, lo, hi) == |times| - k
  {
    if k < |times| {
      CountTail(times[..|times| - 1], k, lo, hi);
    } else {
      CountNone(times, lo, hi);
    }
  }

  /** At a denial the last window length saw the limit, and on top of it whatever was admitted in it before
      the current window was opened. So it saw exactly the limit if and only if it saw nothing of an
      earlier window. */
  lemma DenialExact(times: seq<int>, rate: Rate, now: int)
    requires Clocked(times + [now]) && Sane(rate) && !Admits(After(times, rate), rate, now)
    ensures var start, admitted := After(times, rate).start, Admitted(times, rate); var lo := now - rate.window + 1;
      && CountIn(admitted, lo, now + 1) == rate.limit + CountIn(admitted, lo, start)
      && (CountIn(admitted, lo, now + 1) == rate.limit <==>
            forall i | 0 <= i < |admitted| :: !(now - rate.window < admitted[i] < start))
  {
    hide CountIn, Admitted, Openings, After, Clocked;
    var start, admitted, lo := After(times, rate).start, Admitted(times, rate), now - rate.window + 1;
    DenialJustified(times, rate, now);
    assert lo <= start <= admitted[|admitted| - 1] <= now;
    CountSplit(admitted, lo, start, now + 1);
    if forall i | 0 <= i < |admitted| :: !(lo <= admitted[i] < start) {
      CountNone(admitted, lo, start);
    } else {
      var i :| 0 <= i < |admitted| && lo <= admitted[i] < start;
      CountSome(admitted, i, lo, start);
    }
  }

  /** More than the limit may have been admitted within one window length before a denial: windows are fixed, not sliding. */
  lemma WindowsDoNotSlide()
    ensures var rate, times := Rate(2, 10), [5, 14, 15, 16];
      Clocked(times + [17]) && !Admits(After(times, rate), rate, 17) &&
      CountIn(Admitted(times, rate), 17 - 10 + 1, 17 + 1) == 3 > rate.limit
  {
    var rate := Rate(2, 10);
    OneMore([], 5, rate);
    OneMore([5], 14, rate);
    OneMore([5, 14], 15, rate);
    OneMore([5, 14, 15], 16, rate);
    CountPush([], 5, 8, 18);
    CountPush([5], 14, 8, 18);
    CountPush([5, 14], 15, 8, 18);
    CountPush([5, 14, 15], 16, 8, 18);
    assert [] + [5] == [5] && [5] + [14] == [5, 14] && [5, 14] + [15] == [5, 14, 15] && [5, 14, 15] + [16] == [5, 14, 15, 16];
  }

  lemma OneMore(times: seq<int>, now: int, rate: Rate)
    ensures After(times + [now], rate) == NextBucket(After(times, rate), rate, now)
    ensures Admitted(times + [now], rate) == if Admits(After(times, rate), rate, now) then
              Admitted(times, rate) + [now] else Admitted(times, rate)
  {
    assert (times + [now])[..|times|] == times;
  }

  // ---------------------------------------------------------- all keys together

  datatype Call = Call(key: string, now: int)

  function BucketOf(buckets: map<string, Bucket>, key: string): Bucket {
    if key in buckets then buckets[key] else NO_BUCKET
  }

  /** The times at which one key was called. */
  function TimesOf(calls: seq<Call>, key: string): seq<int> {
    if calls == [] then []
    else
      var times, call := TimesOf(calls[..|calls| - 1], key), calls[|calls| - 1];
      if call.key == key then times + [call.now] else times
  }

  function TableAfter(calls: seq<Call>, rate: Rate): map<string, Bucket> {
    if calls == [] then map[]
    else
      var table, call := TableAfter(calls[..|calls| - 1], rate), calls[|calls| - 1];
      if Admits(BucketOf(table, call.key), rate, call.now) then
        table[call.key := NextBucket(BucketOf(table, call.key), rate, call.now)]
      else table
  }

  /** The decisions of one limiter for the calls of one key, among all calls. */
  function DecisionsFor(calls: seq<Call>, rate: Rate, key: string): seq<bool> {
    if calls == [] then []
    else
      var front, call := calls[..|calls| - 1], calls[|calls| - 1];
      if call.key == key then DecisionsFor(front, rate, key) + [Admits(BucketOf(TableAfter(front, rate), key), rate, call.now)]
      else DecisionsFor(front, rate, key)
  }

  /** The decisions for a key are those of a limiter that never sees another key. */
  lemma {:induction false} KeysAreIndependent(calls: seq<Call>, rate: Rate, key: string)
    ensures BucketOf(TableAfter(calls, rate), key) == After(TimesOf(calls, key), rate)
    ensures DecisionsFor(calls, rate, key) == Decisions(TimesOf(calls, key), rate)
  {
    if calls != [] {
      var front, call := calls[..|calls| - 1], calls[|calls| - 1];
      KeysAreIndependent(front, rate, key);
      if call.key == key {
        var times := TimesOf(front, key);
        assert (times + [call.now])[..|times|] == times;
      }
    }
  }

  predicate CallsClocked(calls: seq<Call>) {
    forall i, j | 0 <= i <= j < |calls| :: ZERO_TIME < calls[i].now <= calls[j].now
  }

  lemma {:induction false} TimesClocked(calls: seq<Call>, key: string)
    requires CallsClocked(calls)
    ensures Clocked(TimesOf(calls, key))
    ensures forall i | 0 <= i < |TimesOf(calls, key)| :: calls != [] && TimesOf(calls, key)[i] <= calls[|calls| - 1].now
  {
    if calls != [] {
      TimesClocked(calls[..|calls| - 1], key);
    }
  }

  class FixedWindow {
    const rate: Rate
    var buckets: map<string, Bucket>
    /** Every call so far. */
    ghost var calls: seq<Call>

    constructor (rate: Rate)
      ensures Valid() && this.rate == rate && calls == []
    {
      this.rate, buckets, calls := rate, map[], [];
    }

    ghost predicate Valid()
      reads this
    {
      buckets == TableAfter(calls, rate)
    }

    /** Allow: the decision is the one the key's own earlier calls lead to. */
    method Allow(key: string, now: int) returns (ok: bool)
      requires Valid()
      modifies this
      ensures Valid() && calls == old(calls) + [Call(key, now)]
      ensures ok == Admits(After(TimesOf(old(calls), key), rate), rate, now)
    {
      assert (calls + [Call(key, now)])[..|calls|] == calls;
      KeysAreIndependent(calls, rate, key);
      calls := calls + [Call(key, now)];
      var b := if key in buckets then buckets[key] else NO_BUCKET;
      if b.start == ZERO_TIME || now - b.start >= rate.window {
        buckets := buckets[key := Bucket(now, 1)];
        return true;
      }
      if b.count >= rate.limit {
        return false;
      }
      b := Bucket(b.start, b.count + 1);
      buckets := buckets[key := b];
      return true;
    }

    /** What a limiter in use has granted to a key in n windows' time. */
    lemma KeyBurst(key: string, lo: int, n: nat)
      requires Valid() && CallsClocked(calls) && Sane(rate)
      ensures CountIn(Admitted(TimesOf(calls, key), rate), lo, lo + n * rate.window) <= (n + 1) * rate.limit
    {
      TimesClocked(calls, key);
      BurstBound(TimesOf(calls, key), rate, lo, n);
    }
  }

  /** NewFixedWindow, after the rate was parsed: no limiter for a limit of zero. */
  method NewFixedWindow(rate: Rate) returns (f: FixedWindow?)
    ensures rate.limit <= 0 <==> f == null
    ensures f != null ==> fresh(f) && f.Valid() && f.rate == rate && f.calls == []
  {
    if rate.limit <= 0 {
      return null;
    }
    f := new FixedWindow(rate);
  }

  /** The handler's call, where an absent limiter admits everything. */
  method Allowed(f: FixedWindow?, key: string, now: int) returns (ok: bool)
    requires f != null ==> f.Valid()
    modifies f
    ensures f == null ==> ok
    ensures f != null ==> f.Valid() && f.calls == old(f.calls) + [Call(key, now)]
    ensures f != null ==> ok == Admits(After(TimesOf(old(f.calls), key), f.rate), f.rate, now)
  {
    if f == null {
      return true;
    }
    ok := f.Allow(key, now);
  }

  // ---------------------------------------------------------------- semaphores

  /** A buffered channel that is filled by Acquire and drained by Release. */
  class Semaphore {
    const capacity: nat
    var filled: nat

    constructor (n: int)
      ensures Valid() && capacity == (if n <= 0 then 1 else n) && filled == 0
    {
      capacity, filled := if n <= 0 then 1 else n, 0;
    }

    predicate Valid()
      reads this
    {
      filled <= capacity
    }

    method Acquire() returns (ok: bool)
      requires Valid()
      modifies this`filled
      ensures Valid() && (ok <==> old(filled) < capacity) && filled == old(filled) + (if ok then 1 else 0)
    {
      ok := filled < capacity;
      if ok {
        filled := filled + 1;
      }
    }

    /** Receiving from the channel; on an empty one it would block. */
    method Release()
      requires Valid() && filled > 0
      modifies this`filled
      ensures Valid() && filled == old(filled) - 1
    {
      filled := filled - 1;
    }
  }

  lemma SetAlsoIn(m: map<string, Semaphore>, key: string, sem: Semaphore)
    requires key in m ==> m[key] == sem
    ensures m[key := sem].Values == m.Values + {sem}
  {
    var after := m[key := sem];
    assert key in after && after[key] == sem;
    forall v | v in m.Values
      ensures v in after.Values
    {
      var k :| k in m && m[k] == v;
      assert k in after && after[k] == v;
    }
  }

  /** One semaphore per key, made on first use and kept. */
  class PerKey {
    const n: int
    var m: map<string, Semaphore>

    constructor (n: int)
      ensures Valid() && this.n == n && m == map[]
    {
      this.n, m := n, map[];
    }

    ghost predicate Valid()
      reads this
    {
      (forall key | key in m :: m[key].capacity == if n <= 0 then 1 else n) &&
      (forall a, b | a in m && b in m && m[a] == m[b] :: a == b)
    }

    /** The same semaphore for the same key on every call, and different ones for different keys. */
    method Get(key: string) returns (sem: Semaphore)
      requires Valid()
      modifies this`m
      ensures Valid() && m == old(m)[key := sem] && m.Values == old(m.Values) + {sem}
      ensures if key in old(m) then m == old(m) else fresh(sem) && sem.filled == 0
    {
      if key !in m {
        sem := new Semaphore(n);
        m := m[key := sem];
      }
      sem := m[key];
      SetAlsoIn(old(m), key, sem);
    }
  }
}
