/** The integer token bucket that governs outbound calls. */
module TokenBucket {

  /** Values of an unsigned 64-bit counter. */
  const U64: nat := 0x1_0000_0000_0000_0000

  const NANOS: nat := 1_000_000_000

  /** The bucket's state; times are nanoseconds of a monotone clock. */
  datatype Bucket = Bucket(capacity: nat, rate: nat, available: nat, last: nat) {
    predicate Valid() { available <= capacity < U64 && rate < U64 }
  }

  /** Whole tokens earned since the last refill, truncated to 64 bits. */
  function Earned(b: Bucket, now: nat): nat
    requires b.last <= now
  {
    (now - b.last) * b.rate / NANOS % U64
  }

  /** A refill. The clock is read twice: at `now` to measure, and at `stamp` to remember. */
  function Refilled(b: Bucket, now: nat, stamp: nat): Bucket
    requires b.last <= now <= stamp
  {
    if Earned(b, now) == 0 then b
    else
      var sum := b.available + Earned(b, now);
      b.(available := if sum < b.capacity then sum else b.capacity, last := stamp)
  }

  /** A request for `n` tokens with its two clock readings. */
  datatype Call = Call(n: nat, now: nat, stamp: nat)

  predicate Granted(b: Bucket, c: Call)
    requires b.last <= c.now <= c.stamp
  {
    Refilled(b, c.now, c.stamp).available >= c.n
  }

  function Taken(b: Bucket, c: Call): Bucket
    requires b.last <= c.now <= c.stamp
  {
    var r := Refilled(b, c.now, c.stamp);
    if Granted(b, c) then r.(available := r.available - c.n) else r
  }

  class Governor {
    const capacity: nat
    const refillPerSec: nat
    var available: nat
    var lastRefill: nat

    ghost function View(): Bucket
      reads this
    {
      Bucket(capacity, refillPerSec, available, lastRefill)
    }

    constructor (capacity: nat, refillPerSec: nat, now: nat)
      ensures View() == Bucket(capacity, refillPerSec, capacity, now)
    {
      this.capacity, this.refillPerSec := capacity, refillPerSec;
      available, lastRefill := capacity, now;
    }

    method Refill(now: nat, stamp: nat)
      requires View().Valid() && lastRefill <= now <= stamp
      modifies this
      ensures View() == Refilled(old(View()), now, stamp) && View().Valid()
    {
      var elapsed := now - lastRefill;
      if elapsed == 0 {
        return;
      }
      var earned := elapsed * refillPerSec / NANOS % U64;
      if earned > 0 {
        var saturated := if available + earned < U64 then available + earned else U64 - 1;
        available := if saturated < capacity then saturated else capacity;
        lastRefill := stamp;
      }
    }

    method TryTake(n: nat, now: nat, stamp: nat) returns (ok: bool)
      requires View().Valid() && lastRefill <= now <= stamp
      modifies this
      ensures ok == Granted(old(View()), Call(n, now, stamp))
      ensures View() == Taken(old(View()), Call(n, now, stamp)) && View().Valid()
    {
      Refill(now, stamp);
      if available >= n {
        available := available - n;
        return true;
      }
      return false;
    }
  }

  // ---- Runs ----

  /** Clock readings never go back. */
  ghost predicate Chronological(b: Bucket, calls: seq<Call>) {
    calls == [] || (b.last <= calls[0].now <= calls[0].stamp &&
      forall i, j :: 0 <= i < j < |calls| ==>
        calls[i].now <= calls[i].stamp <= calls[j].now <= calls[j].stamp)
  }

  lemma {:induction false} Advance(b: Bucket, calls: seq<Call>)
    requires calls != [] && Chronological(b, calls)
    ensures Chronological(Taken(b, calls[0]), calls[1..])
  {}

  /** Tokens granted over a run of calls. */
  function Total(b: Bucket, calls: seq<Call>): nat
    requires Chronological(b, calls)
    decreases |calls|
  {
    if calls == [] then 0
    else
      Advance(b, calls);
      (if Granted(b, calls[0]) then calls[0].n else 0) + Total(Taken(b, calls[0]), calls[1..])
  }

  /** Nano-tokens accruing between two times. */
  function Accrued(rate: nat, from: nat, to: nat): nat
    requires from <= to
  {
    (to - from) * rate
  }

  /** Nano-tokens that accrued since the last refill, as far as a 64-bit count can see. */
  function Pending(b: Bucket, now: nat): nat
    requires b.last <= now
  {
    Visible(Accrued(b.rate, b.last, now))
  }

  function Visible(nanos: nat): nat { nanos % (U64 * NANOS) }

  lemma AccruedAdds(rate: nat, a: nat, b: nat, c: nat)
    requires a <= b <= c
    ensures Accrued(rate, a, c) == Accrued(rate, a, b) + Accrued(rate, b, c)
  {}

  lemma AccruedNothing(rate: nat, a: nat)
    ensures Accrued(rate, a, a) == 0
  {}

  lemma WholeTokens(x: nat)
    ensures x / NANOS % U64 == Visible(x) / NANOS
  {
    var k, r := x / (U64 * NANOS), x % (U64 * NANOS);
    assert x == k * (U64 * NANOS) + r;
    assert x / NANOS == k * U64 + r / NANOS;
  }

  lemma EarnedIsPending(b: Bucket, now: nat)
    requires b.last <= now
    ensures NANOS * Earned(b, now) <= Pending(b, now) < NANOS * Earned(b, now) + NANOS
  {
    WholeTokens(Accrued(b.rate, b.last, now));
  }

  lemma VisibleAdds(x: nat, y: nat)
    ensures Visible(x + y) <= Visible(x) + y
    ensures x < U64 * NANOS ==> Visible(x) == x
  {
    var m := U64 * NANOS;
    assert x == x / m * m + x % m;
    if x % m + y < m {
      assert (x + y) / m == x / m;
    }
  }

  lemma PendingGrows(b: Bucket, now: nat, later: nat)
    requires b.last <= now <= later
    ensures Pending(b, later) <= Pending(b, now) + Accrued(b.rate, now, later)
  {
    hide Accrued, Visible;
    AccruedAdds(b.rate, b.last, now, later);
    VisibleAdds(Accrued(b.rate, b.last, now), Accrued(b.rate, now, later));
  }

  /** The last measuring clock reading of a run. */
  function End(start: nat, calls: seq<Call>): nat {
    if calls == [] then start else calls[|calls| - 1].now
  }

  /** What one call does, in terms of what was pending. */
  lemma CallEffect(b: Bucket, c: Call)
    requires b.Valid() && b.last <= c.now <= c.stamp
    ensures var b' := Taken(b, c);
      && b'.Valid() && b'.capacity == b.capacity && b'.rate == b.rate
      && b'.available + Grant(b, c) <= b.available + Earned(b, c.now)
      && b'.available + Grant(b, c) <= b.capacity
      && b'.last == (if Earned(b, c.now) == 0 then b.last else c.stamp)
  {
    hide Earned;
  }

  function Grant(b: Bucket, c: Call): nat
    requires b.last <= c.now <= c.stamp
  {
    if Granted(b, c) then c.n else 0
  }

  /** Where the account of the remaining calls starts after a call. */
  function Resume(b: Bucket, c: Call): nat
    requires b.last <= c.now <= c.stamp
  {
    if Earned(b, c.now) == 0 then c.now else c.stamp
  }

  /** What is left pending after a call, and the time until the end of the run, both count. */
  lemma CallAccounts(b: Bucket, calls: seq<Call>)
    requires b.Valid() && calls != [] && Chronological(b, calls)
    ensures var c := calls[0];
      var b', start := Taken(b, c), Resume(b, c);
      && b'.last <= start && (calls[1..] != [] ==> start <= calls[1].now)
      && start <= End(start, calls[1..])
      && c.now <= End(c.now, calls)
      && Accrued(b.rate, start, End(start, calls[1..])) <= Accrued(b.rate, c.now, End(c.now, calls))
      && Pending(b', start) + NANOS * Earned(b, c.now) <= Pending(b, c.now)
      && Pending(b', start) < NANOS
  {
    hide Accrued, Visible, Earned;
    var c := calls[0];
    var start, end := Resume(b, c), End(c.now, calls);
    CallEffect(b, c);
    EarnedIsPending(b, c.now);
    AccruedNothing(b.rate, start);
    VisibleAdds(0, 0);
    if calls[1..] == [] {
      AccruedNothing(b.rate, c.now);
    } else {
      assert End(start, calls[1..]) == end;
      AccruedAdds(b.rate, c.now, start, end);
    }
  }

  /** What a run can grant is what is available plus what accrues: everything pending at its start
      and everything until its end. */
  lemma {:induction false} GrantsArePaidFor(b: Bucket, calls: seq<Call>, start: nat)
    requires b.Valid() && Chronological(b, calls)
    requires b.last <= start && (calls != [] ==> start <= calls[0].now)
    ensures start <= End(start, calls)
    ensures NANOS * Total(b, calls) <=
      NANOS * b.available + Pending(b, start) + Accrued(b.rate, start, End(start, calls))
    decreases |calls|
  {
    hide Accrued, Visible, Earned, Taken, Granted, Pending;
    if calls != [] {
      var c := calls[0];
      var b', resume := Taken(b, c), Resume(b, c);
      Advance(b, calls);
      CallEffect(b, c);
      CallAccounts(b, calls);
      GrantsArePaidFor(b', calls[1..], resume);
      PendingGrows(b, start, c.now);
      assert End(start, calls) == End(c.now, calls);
      AccruedAdds(b.rate, start, c.now, End(c.now, calls));
      assert Total(b, calls) == Grant(b, c) + Total(b', calls[1..]);
    }
  }

  /** Long-run bound: since its creation a bucket has granted at most its capacity plus the tokens
      that accrued. */
  lemma GrantsSinceCreation(capacity: nat, rate: nat, created: nat, calls: seq<Call>)
    requires capacity < U64 && rate < U64
    requires Chronological(Bucket(capacity, rate, capacity, created), calls)
    ensures created <= End(created, calls)
    ensures NANOS * Total(Bucket(capacity, rate, capacity, created), calls) <=
      NANOS * capacity + Accrued(rate, created, End(created, calls))
  {
    hide Accrued, Visible;
    var b := Bucket(capacity, rate, capacity, created);
    GrantsArePaidFor(b, calls, created);
    AccruedNothing(rate, created);
    VisibleAdds(0, 0);
  }

  /** Burst bound. From any state of the bucket, a run of calls grants strictly less than the
      capacity, plus the tokens accruing between its first and its last call, plus one. */
  lemma GrantsInWindow(b: Bucket, calls: seq<Call>)
    requires b.Valid() && calls != [] && Chronological(b, calls)
    ensures calls[0].now <= End(0, calls)
    ensures NANOS * Total(b, calls) <
      NANOS * (b.capacity + 1) + Accrued(b.rate, calls[0].now, End(0, calls))
  {
    hide Accrued, Visible, Earned, Taken, Granted, Pending;
    var c := calls[0];
    var b' := Taken(b, c);
    Advance(b, calls);
    CallEffect(b, c);
    CallAccounts(b, calls);
    GrantsArePaidFor(b', calls[1..], Resume(b, c));
    assert Total(b, calls) == Grant(b, c) + Total(b', calls[1..]);
    assert End(0, calls) == End(c.now, calls);
  }

  /** The extra token is real: a bucket of one token and one token a second grants two tokens
      within a single nanosecond, because a refill that earns nothing does not restart the clock. */
  lemma ExtraTokenIsReal()
    ensures var calls := [Call(1, 999_999_999, 999_999_999), Call(1, 1_000_000_000, 1_000_000_000)];
      Chronological(Bucket(1, 1, 1, 0), calls) && Total(Bucket(1, 1, 1, 0), calls) == 2
  {
    var b, spent := Bucket(1, 1, 1, 0), Bucket(1, 1, 0, 0);
    var first, second := Call(1, 999_999_999, 999_999_999), Call(1, 1_000_000_000, 1_000_000_000);
    assert Earned(b, 999_999_999) == 0 && Earned(spent, 1_000_000_000) == 1;
    assert Taken(b, first) == spent && Granted(b, first) && Granted(spent, second);
    assert [first, second][1..] == [second] && [second][1..] == [];
    hide Earned, Taken, Granted;
    Advance(b, [first, second]);
    Advance(spent, [second]);
    assert Total(spent, [second]) == 1 + Total(Taken(spent, second), []);
  }

  // ---- Polling ----

  /** Every call of the run is refused. */
  ghost predicate AllRefused(b: Bucket, calls: seq<Call>)
    requires Chronological(b, calls)
    decreases |calls|
  {
    calls == [] || (
      Advance(b, calls);
      !Granted(b, calls[0]) && AllRefused(Taken(b, calls[0]), calls[1..]))
  }

  /** No call comes so late that the tokens earned since the last refill do not fit the 64-bit
      count. */
  ghost predicate Counted(b: Bucket, calls: seq<Call>)
    requires Chronological(b, calls)
    decreases |calls|
  {
    calls == [] || (
      Advance(b, calls);
      && Accrued(b.rate, b.last, calls[0].now) < U64 * NANOS
      && Counted(Taken(b, calls[0]), calls[1..]))
  }

  /** What accrues between the two clock readings of each call, which a refill throws away. */
  function Gaps(rate: nat, calls: seq<Call>): nat
    requires forall i :: 0 <= i < |calls| ==> calls[i].now <= calls[i].stamp
  {
    if calls == [] then 0 else Accrued(rate, calls[0].now, calls[0].stamp) + Gaps(rate, calls[1..])
  }

  /** A refused call loses only its own gap, and banks at least half of what it restarts the clock
      for. */
  lemma RefusedCall(b: Bucket, c: Call)
    requires b.Valid() && c.n <= b.capacity && b.last <= c.now <= c.stamp && !Granted(b, c)
    requires Accrued(b.rate, b.last, c.now) < U64 * NANOS
    ensures var b' := Taken(b, c);
      && b'.available < c.n
      && (Earned(b, c.now) == 0 ==>
            b'.last == b.last && b'.available == b.available && Accrued(b.rate, b.last, c.now) < NANOS)
      && (Earned(b, c.now) > 0 ==>
            b'.last == c.stamp && Accrued(b.rate, b.last, c.now) <= 2 * NANOS * (b'.available - b.available))
  {
    EarnedIsPending(b, c.now);
    VisibleAdds(Accrued(b.rate, b.last, c.now), 0);
    hide Accrued, Visible, Earned;
  }

  /** While calls for at most `n` tokens are refused, at least half of what accrued since `b.last`,
      but for the gaps, has been banked. */
  lemma {:induction false} PollingBanks(b: Bucket, calls: seq<Call>, n: nat)
    requires b.Valid() && n <= b.capacity && calls != [] && Chronological(b, calls)
    requires forall i :: 0 <= i < |calls| ==> calls[i].n <= n
    requires AllRefused(b, calls) && Counted(b, calls)
    ensures b.last <= End(0, calls) && b.available < n
    ensures Accrued(b.rate, b.last, End(0, calls)) < 2 * NANOS * (n - b.available) + Gaps(b.rate, calls)
    decreases |calls|
  {
    hide Accrued, Visible, Earned, Granted;
    var c, end := calls[0], End(0, calls);
    Advance(b, calls);
    CallEffect(b, c);
    RefusedCall(b, c);
    hide Taken;
    if calls[1..] != [] {
      assert End(0, calls[1..]) == end;
      PollingBanks(Taken(b, c), calls[1..], n);
      BankedBy(b, c, end, n, Gaps(b.rate, calls[1..]));
    }
  }

  /** If the calls after a refused one have banked their share, so have all. */
  lemma BankedBy(b: Bucket, c: Call, end: nat, n: nat, gaps: nat)
    requires b.Valid() && c.n <= n <= b.capacity && b.last <= c.now <= c.stamp <= end && !Granted(b, c)
    requires Accrued(b.rate, b.last, c.now) < U64 * NANOS
    requires var b' := Taken(b, c);
      b'.last <= end && Accrued(b.rate, b'.last, end) < 2 * NANOS * (n - b'.available) + gaps
    ensures Accrued(b.rate, b.last, end) <
      2 * NANOS * (n - b.available) + (Accrued(b.rate, c.now, c.stamp) + gaps)
  {
    hide Accrued, Visible, Earned, Granted;
    RefusedCall(b, c);
    hide Taken;
    if Earned(b, c.now) > 0 {
      AccruedAdds(b.rate, b.last, c.now, end);
      AccruedAdds(b.rate, c.now, c.stamp, end);
    }
  }

  /** Polling never starves. A waiter that polls for `n` tokens (or fewer), as often as it likes, is
      served at the latest by the first poll at which twice the missing tokens have accrued, over
      and above what accrued between the two clock readings of its polls: every refused refill
      banks at least half of what it measured, and loses only its own gap. */
  lemma PollingIsServed(b: Bucket, calls: seq<Call>, n: nat)
    requires b.Valid() && b.available <= n <= b.capacity && calls != [] && Chronological(b, calls)
    requires forall i :: 0 <= i < |calls| ==> calls[i].n <= n
    ensures b.last <= End(0, calls)
    ensures Counted(b, calls) ==>
      Accrued(b.rate, b.last, End(0, calls)) >= 2 * NANOS * (n - b.available) + Gaps(b.rate, calls) ==>
        !AllRefused(b, calls)
  {
    hide Accrued, AllRefused, Counted, Gaps;
    if Counted(b, calls) && AllRefused(b, calls) {
      PollingBanks(b, calls, n);
    }
  }

  /** With a clock that does not move between the two readings, twice the missing tokens suffice. */
  lemma PromptPollingIsServed(b: Bucket, calls: seq<Call>, n: nat)
    requires b.Valid() && b.available <= n <= b.capacity && calls != [] && Chronological(b, calls)
    requires forall i :: 0 <= i < |calls| ==> calls[i].n <= n && calls[i].now == calls[i].stamp
    ensures b.last <= End(0, calls)
    ensures Counted(b, calls) && Accrued(b.rate, b.last, End(0, calls)) >= 2 * NANOS * (n - b.available) ==>
      !AllRefused(b, calls)
  {
    hide Accrued, AllRefused, Counted;
    NoGaps(b.rate, calls);
    if Counted(b, calls) && Accrued(b.rate, b.last, End(0, calls)) >= 2 * NANOS * (n - b.available) {
      PollingIsServed(b, calls, n);
    }
  }

  lemma {:induction false} NoGaps(rate: nat, calls: seq<Call>)
    requires forall i :: 0 <= i < |calls| ==> calls[i].now == calls[i].stamp
    ensures Gaps(rate, calls) == 0
  {
    if calls != [] {
      NoGaps(rate, calls[1..]);
    }
  }

  /** When the count is exact: a refill measures all whole tokens that accrued since the last one if
      and only if they fit in 64 bits. */
  lemma EarnedIsExactIff(b: Bucket, now: nat)
    requires b.last <= now
    ensures Earned(b, now) == Accrued(b.rate, b.last, now) / NANOS <==> Accrued(b.rate, b.last, now) < U64 * NANOS
  {
    var tokens := Accrued(b.rate, b.last, now) / NANOS;
    assert tokens % U64 == tokens <==> tokens < U64;
  }

  /** The count has to fit: at a rate of 2^63 tokens a second, a waiter for a single token that polls
      two seconds after the last refill is refused, although twice what it misses and far more has
      accrued. */
  lemma FastRefillWrapsAround()
    ensures var b, calls := Bucket(1, 0x8000_0000_0000_0000, 0, 0), [Call(1, 2 * NANOS, 2 * NANOS)];
      && b.Valid() && Chronological(b, calls)
      && Accrued(b.rate, b.last, End(0, calls)) == U64 * NANOS >= 2 * NANOS * (1 - b.available) + Gaps(b.rate, calls)
      && AllRefused(b, calls)
  {
    var b, c := Bucket(1, 0x8000_0000_0000_0000, 0, 0), Call(1, 2 * NANOS, 2 * NANOS);
    EarnedIsExactIff(b, c.now);
    assert Earned(b, c.now) == 0;
    assert [c][1..] == [];
    NoGaps(b.rate, [c]);
    hide Earned;
    Advance(b, [c]);
  }

  /** Gaps are lost: two and a half tokens accrue, but the second between the two readings of the first
      call does not count, and the second call is refused. */
  lemma GapIsLost()
    ensures var b := Bucket(10, 1, 0, 0);
      var calls := [Call(1, 1_000_000_000, 2_000_000_000), Call(1, 2_500_000_000, 2_500_000_000)];
      && Chronological(b, calls) && Accrued(b.rate, b.last, End(0, calls)) == 2_500_000_000
      && Total(b, calls) == 1
  {
    var b, second := Bucket(10, 1, 0, 0), Bucket(10, 1, 0, 2_000_000_000);
    var c, d := Call(1, 1_000_000_000, 2_000_000_000), Call(1, 2_500_000_000, 2_500_000_000);
    assert Earned(b, c.now) == 1 && Taken(b, c) == second && Granted(b, c);
    assert Earned(second, d.now) == 0 && !Granted(second, d);
    assert [c, d][1..] == [d] && [d][1..] == [];
    hide Earned, Taken, Granted;
    Advance(b, [c, d]);
    Advance(second, [d]);
    assert Total(second, [d]) == 0 + Total(Taken(second, d), []);
  }
}
