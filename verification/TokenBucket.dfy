/** The Redis token bucket script, over exact arithmetic, for one key with a fixed policy and a
    clock that does not go back. Times are the script's now_ms. */
module TokenBucket {
  import opened Wrappers

  datatype Policy = Policy(capacity: nat, refillPerSecond: real)

  /** validatePolicy */
  predicate ValidPolicy(p: Policy) {
    p.capacity >= 1 && p.refillPerSecond > 0.0
  }

  /** The fields of the Redis hash. */
  datatype Bucket = Bucket(tokens: real, updatedAt: int)

  /** The hash together with the deadline that EXPIRE gave the key. */
  datatype Stored = Stored(bucket: Bucket, expiresAt: int)

  datatype Decision = Decision(allowed: bool, remaining: int, retryAfterSeconds: int)

  function Least(a: real, b: real): real {
    if a <= b then a else b
  }

  function Ceil(x: real): int {
    -((-x).Floor)
  }

  function AtLeastOne(n: int): int {
    if n < 1 then 1 else n
  }

  /** Tokens gained in a number of milliseconds. */
  function Gain(p: Policy, ms: int): real {
    (ms as real / 1000.0) * p.refillPerSecond
  }

  /** Tokens available to a request at `now`, before it pays. */
  function Level(p: Policy, b: Option<Bucket>, now: int): real {
    match b
    case None => p.capacity as real
    case Some(s) =>
      var elapsed := if now < s.updatedAt then 0 else now - s.updatedAt;
      Least(p.capacity as real, s.tokens + Gain(p, elapsed))
  }

  function Pay(level: real): real {
    if level >= 1.0 then level - 1.0 else level
  }

  function Decide(p: Policy, level: real): Decision
    requires ValidPolicy(p)
  {
    Decision(level >= 1.0, Pay(level).Floor,
             if level >= 1.0 then 0 else AtLeastOne(Ceil((1.0 - level) / p.refillPerSecond)))
  }

  function Paid(p: Policy, b: Option<Bucket>, now: int): Bucket {
    Bucket(Pay(Level(p, b, now)), now)
  }

  function TtlSeconds(p: Policy): int
    requires ValidPolicy(p)
  {
    AtLeastOne(Ceil((p.capacity as real / p.refillPerSecond) * 2.0))
  }

  /** What HMGET sees: nothing once the key has expired. */
  function Visible(k: Option<Stored>, now: int): Option<Bucket> {
    if k.Some? && now < k.value.expiresAt then Some(k.value.bucket) else None
  }

  /** The key after a request. */
  function Renewed(p: Policy, k: Option<Stored>, now: int): Stored
    requires ValidPolicy(p)
  {
    Stored(Paid(p, Visible(k, now), now), now + 1000 * TtlSeconds(p))
  }

  lemma GainOfZero(p: Policy)
    ensures Gain(p, 0) == 0.0
  {
  }

  // --- The script -----------------------------------------------------------------------------

  class RedisKey {
    var stored: Option<Stored>

    constructor ()
      ensures stored == None
    {
      stored := None;
    }

    /** One evaluation of the script: read, refill, pay, write back, set the deadline. */
    method Eval(p: Policy, nowMs: int) returns (d: Decision)
      requires ValidPolicy(p)
      modifies this
      ensures d == Decide(p, Level(p, Visible(old(stored), nowMs), nowMs))
      ensures stored == Some(Renewed(p, old(stored), nowMs))
    {
      var tokens := p.capacity as real;
      var updatedAt := nowMs;
      if stored.Some? && nowMs < stored.value.expiresAt {
        tokens := stored.value.bucket.tokens;
        updatedAt := stored.value.bucket.updatedAt;
      }
      var elapsed := if nowMs - updatedAt > 0 then nowMs - updatedAt else 0;
      tokens := Least(p.capacity as real, tokens + Gain(p, elapsed));
      GainOfZero(p);
      assert tokens == Level(p, Visible(stored, nowMs), nowMs);
      var allowed := false;
      var retryAfter := 0;
      if tokens >= 1.0 {
        allowed := true;
        tokens := tokens - 1.0;
      } else {
        retryAfter := AtLeastOne(Ceil((1.0 - tokens) / p.refillPerSecond));
      }
      stored := Some(Stored(Bucket(tokens, nowMs), nowMs + 1000 * TtlSeconds(p)));
      d := Decision(allowed, tokens.Floor, retryAfter);
    }
  }

  // --- Histories ---------------------------------------------------------------------------------

  predicate Nondecreasing(ts: seq<int>) {
    forall i, j :: 0 <= i < j < |ts| ==> ts[i] <= ts[j]
  }

  /** The requests come in time order, not before the bucket's last update. */
  predicate Follows(b: Option<Bucket>, ts: seq<int>) {
    Nondecreasing(ts) && (b.Some? && ts != [] ==> b.value.updatedAt <= ts[0])
  }

  /** The decisions of a bucket whose key never expires. */
  function Decisions(p: Policy, b: Option<Bucket>, ts: seq<int>): seq<Decision>
    requires ValidPolicy(p)
    ensures |Decisions(p, b, ts)| == |ts|
    decreases ts
  {
    if ts == [] then []
    else [Decide(p, Level(p, b, ts[0]))] + Decisions(p, Some(Paid(p, b, ts[0])), ts[1..])
  }

  /** The decisions of the real key, whose deadline is renewed by every request. */
  function ExpiringDecisions(p: Policy, k: Option<Stored>, ts: seq<int>): seq<Decision>
    requires ValidPolicy(p)
    ensures |ExpiringDecisions(p, k, ts)| == |ts|
    decreases ts
  {
    if ts == [] then []
    else [Decide(p, Level(p, Visible(k, ts[0]), ts[0]))] + ExpiringDecisions(p, Some(Renewed(p, k, ts[0])), ts[1..])
  }

  /** What Redis holds for the key after a history. */
  function StoredAfter(p: Policy, k: Option<Stored>, ts: seq<int>): Option<Stored>
    requires ValidPolicy(p)
    decreases ts
  {
    if ts == [] then k else StoredAfter(p, Some(Renewed(p, k, ts[0])), ts[1..])
  }

  // --- Refill arithmetic -----------------------------------------------------------------------

  lemma GainAdds(p: Policy, a: int, b: int)
    ensures Gain(p, a + b) == Gain(p, a) + Gain(p, b)
  {
    var x, y := a as real / 1000.0, b as real / 1000.0;
    assert (a + b) as real / 1000.0 == x + y;
    assert (x + y) * p.refillPerSecond == x * p.refillPerSecond + y * p.refillPerSecond;
  }

  lemma GainNonNegative(p: Policy, ms: int)
    requires ValidPolicy(p) && ms >= 0
    ensures Gain(p, ms) >= 0.0
  {
  }

  lemma GainGrows(p: Policy, a: int, b: int)
    requires ValidPolicy(p) && a <= b
    ensures Gain(p, a) <= Gain(p, b)
  {
    GainAdds(p, a, b - a);
    GainNonNegative(p, b - a);
  }

  lemma GainOfSeconds(p: Policy, seconds: int)
    ensures Gain(p, 1000 * seconds) == seconds as real * p.refillPerSecond
  {
    assert (1000 * seconds) as real / 1000.0 == seconds as real;
  }

  lemma ScaleKeepsOrder(p: Policy, x: real, y: real)
    requires ValidPolicy(p)
    ensures x <= y ==> x * p.refillPerSecond <= y * p.refillPerSecond
    ensures x < y ==> x * p.refillPerSecond < y * p.refillPerSecond
  {
  }

  lemma CeilBounds(x: real)
    ensures x <= Ceil(x) as real < x + 1.0
  {
  }

  // --- Stored tokens stay within bounds --------------------------------------------------------

  predicate BucketOk(p: Policy, b: Option<Bucket>) {
    b.Some? ==> 0.0 <= b.value.tokens <= p.capacity as real
  }

  lemma LevelInBounds(p: Policy, b: Option<Bucket>, now: int)
    requires ValidPolicy(p) && BucketOk(p, b)
    ensures 0.0 <= Level(p, b, now) <= p.capacity as real
    ensures BucketOk(p, Some(Paid(p, b, now)))
  {
    if b.Some? {
      GainNonNegative(p, if now < b.value.updatedAt then 0 else now - b.value.updatedAt);
    }
  }

  // --- Rate bound ---------------------------------------------------------------------------------

  /** Requests allowed with a timestamp in [from, to]. */
  function AllowedWithin(ds: seq<Decision>, ts: seq<int>, from: int, to: int): nat
    requires |ds| == |ts|
  {
    if ts == [] then 0
    else (if from <= ts[0] <= to && ds[0].allowed then 1 else 0) + AllowedWithin(ds[1..], ts[1..], from, to)
  }

  /** Nothing is allowed that was neither in the bucket nor refilled. */
  lemma {:induction false} AllowedFromBucket(p: Policy, b: Bucket, ts: seq<int>, from: int, to: int)
    requires ValidPolicy(p) && BucketOk(p, Some(b)) && Follows(Some(b), ts) && b.updatedAt <= to
    ensures AllowedWithin(Decisions(p, Some(b), ts), ts, from, to) as real <= b.tokens + Gain(p, to - b.updatedAt)
    decreases ts
  {
    GainNonNegative(p, to - b.updatedAt);
    if ts != [] {
      var b' := Paid(p, Some(b), ts[0]);
      LevelInBounds(p, Some(b), ts[0]);
      if ts[0] <= to {
        GainAdds(p, ts[0] - b.updatedAt, to - ts[0]);
        AllowedFromBucket(p, b', ts[1..], from, to);
      } else {
        LaterIsOutside(p, Some(b), ts, from, to);
      }
    }
  }

  lemma {:induction false} LaterIsOutside(p: Policy, b: Option<Bucket>, ts: seq<int>, from: int, to: int)
    requires ValidPolicy(p) && Nondecreasing(ts) && (ts != [] ==> ts[0] > to)
    ensures AllowedWithin(Decisions(p, b, ts), ts, from, to) == 0
    decreases ts
  {
    if ts != [] {
      LaterIsOutside(p, Some(Paid(p, b, ts[0])), ts[1..], from, to);
    }
  }

  lemma {:induction false} WindowIsBounded(p: Policy, b: Option<Bucket>, ts: seq<int>, from: int, to: int)
    requires ValidPolicy(p) && BucketOk(p, b) && Follows(b, ts) && from <= to
    ensures AllowedWithin(Decisions(p, b, ts), ts, from, to) as real <= p.capacity as real + Gain(p, to - from)
    decreases ts
  {
    GainNonNegative(p, to - from);
    if ts != [] {
      LevelInBounds(p, b, ts[0]);
      var b' := Paid(p, b, ts[0]);
      if ts[0] < from {
        WindowIsBounded(p, Some(b'), ts[1..], from, to);
      } else if ts[0] <= to {
        AllowedFromBucket(p, b', ts[1..], from, to);
        GainGrows(p, to - ts[0], to - from);
      } else {
        LaterIsOutside(p, b, ts, from, to);
      }
    }
  }

  // --- Expiry is invisible -------------------------------------------------------------------------

  lemma TtlOutlastsRefill(p: Policy)
    requires ValidPolicy(p)
    ensures Gain(p, 1000 * TtlSeconds(p)) >= p.capacity as real
  {
    var x := p.capacity as real / p.refillPerSecond;
    CeilBounds(x * 2.0);
    GainOfSeconds(p, TtlSeconds(p));
    assert x * p.refillPerSecond == p.capacity as real;
    assert TtlSeconds(p) as real >= x * 2.0 >= x;
    ScaleKeepsOrder(p, x, TtlSeconds(p) as real);
  }

  /** The key's deadline is the one its last request set. */
  predicate StoredOk(p: Policy, k: Option<Stored>)
    requires ValidPolicy(p)
  {
    k.Some? ==> BucketOk(p, Some(k.value.bucket))
                && k.value.expiresAt == k.value.bucket.updatedAt + 1000 * TtlSeconds(p)
  }

  function Kept(k: Option<Stored>): Option<Bucket> {
    if k.Some? then Some(k.value.bucket) else None
  }

  /** When the key has expired the bucket would have been full anyway. */
  lemma ExpiredIsFull(p: Policy, k: Option<Stored>, now: int)
    requires ValidPolicy(p) && StoredOk(p, k)
    ensures Level(p, Visible(k, now), now) == Level(p, Kept(k), now)
  {
    if k.Some? && now >= k.value.expiresAt {
      TtlOutlastsRefill(p);
      GainGrows(p, 1000 * TtlSeconds(p), now - k.value.bucket.updatedAt);
    }
  }

  /** Every request history gets the same decisions as from a bucket that is never deleted. */
  lemma {:induction false} ExpiryIsInvisible(p: Policy, k: Option<Stored>, ts: seq<int>)
    requires ValidPolicy(p) && StoredOk(p, k)
    ensures ExpiringDecisions(p, k, ts) == Decisions(p, Kept(k), ts)
    decreases ts
  {
    if ts != [] {
      ExpiredIsFull(p, k, ts[0]);
      LevelInBounds(p, Kept(k), ts[0]);
      assert Renewed(p, k, ts[0]).bucket == Paid(p, Kept(k), ts[0]);
      ExpiryIsInvisible(p, Some(Renewed(p, k, ts[0])), ts[1..]);
    }
  }

  /** After any history of requests, at whatever times, the stored hash holds between no token and
      the capacity, and the key's deadline is the one that its last request set. */
  lemma {:induction false} StoredStaysInBounds(p: Policy, k: Option<Stored>, ts: seq<int>)
    requires ValidPolicy(p) && StoredOk(p, k)
    ensures StoredOk(p, StoredAfter(p, k, ts))
    ensures ts != [] ==>
              var s := StoredAfter(p, k, ts);
              && s.Some? && 0.0 <= s.value.bucket.tokens <= p.capacity as real
              && s.value.bucket.updatedAt == ts[|ts| - 1]
    decreases ts
  {
    if ts != [] {
      LevelInBounds(p, Visible(k, ts[0]), ts[0]);
      StoredStaysInBounds(p, Some(Renewed(p, k, ts[0])), ts[1..]);
    }
  }

  /** Rate bound: in any window of any request history the key allows at most its capacity plus
      what the window refills. */
  lemma RateIsBounded(p: Policy, k: Option<Stored>, ts: seq<int>, from: int, to: int)
    requires ValidPolicy(p) && StoredOk(p, k) && Follows(Kept(k), ts) && from <= to
    ensures AllowedWithin(ExpiringDecisions(p, k, ts), ts, from, to) as real
            <= p.capacity as real + Gain(p, to - from)
  {
    ExpiryIsInvisible(p, k, ts);
    WindowIsBounded(p, Kept(k), ts, from, to);
  }

  // --- Rejections are invisible --------------------------------------------------------------------

  /** A rejected request leaves the level at every later time as it was. */
  lemma RejectionKeepsLevel(p: Policy, b: Option<Bucket>, now: int, later: int)
    requires ValidPolicy(p) && Level(p, b, now) < 1.0 && now <= later
    requires b.Some? ==> b.value.updatedAt <= now
    ensures Level(p, Some(Paid(p, b, now)), later) == Level(p, b, later)
  {
    if b.Some? {
      GainAdds(p, now - b.value.updatedAt, later - now);
    }
  }

  /** Decisions depend on the level at the next request only. */
  lemma SameLevelSameDecisions(p: Policy, b: Option<Bucket>, c: Option<Bucket>, ts: seq<int>)
    requires ValidPolicy(p) && (ts != [] ==> Level(p, b, ts[0]) == Level(p, c, ts[0]))
    ensures Decisions(p, b, ts) == Decisions(p, c, ts)
  {
  }

  function Without<T>(s: seq<T>, k: nat): seq<T>
    requires k < |s|
  {
    s[..k] + s[k + 1..]
  }

  lemma WithoutCons<T>(x: T, s: seq<T>, k: nat)
    requires k < |s|
    ensures Without([x] + s, k + 1) == [x] + Without(s, k)
  {
    assert ([x] + s)[..k + 1] == [x] + s[..k];
    assert ([x] + s)[k + 2..] == s[k + 1..];
  }

  lemma {:induction false} RejectionDrops(p: Policy, b: Option<Bucket>, ts: seq<int>, k: nat)
    requires ValidPolicy(p) && Follows(b, ts) && k < |ts| && !Decisions(p, b, ts)[k].allowed
    ensures Decisions(p, b, Without(ts, k)) == Without(Decisions(p, b, ts), k)
    decreases k
  {
    var b' := Paid(p, b, ts[0]);
    var first := Decide(p, Level(p, b, ts[0]));
    var rest := Decisions(p, Some(b'), ts[1..]);
    assert ts == [ts[0]] + ts[1..];
    if k == 0 {
      assert Without(ts, 0) == ts[1..] && Without([first] + rest, 0) == rest;
      if |ts| > 1 {
        RejectionKeepsLevel(p, b, ts[0], ts[1]);
      }
      SameLevelSameDecisions(p, b, Some(b'), ts[1..]);
    } else {
      RejectionDrops(p, Some(b'), ts[1..], k - 1);
      WithoutCons(ts[0], ts[1..], k - 1);
      WithoutCons(first, rest, k - 1);
      ConsDecisions(p, b, ts[0], Without(ts[1..], k - 1));
    }
  }

  lemma ConsDecisions(p: Policy, b: Option<Bucket>, t: int, ts: seq<int>)
    requires ValidPolicy(p)
    ensures Decisions(p, b, [t] + ts) == [Decide(p, Level(p, b, t))] + Decisions(p, Some(Paid(p, b, t)), ts)
  {
    assert ([t] + ts)[1..] == ts;
  }

  /** Deleting a rejected request from a history changes no other decision of the key. */
  lemma RejectionIsInvisible(p: Policy, k: Option<Stored>, ts: seq<int>, i: nat)
    requires ValidPolicy(p) && StoredOk(p, k) && Follows(Kept(k), ts) && i < |ts|
    requires !ExpiringDecisions(p, k, ts)[i].allowed
    ensures ExpiringDecisions(p, k, Without(ts, i)) == Without(ExpiringDecisions(p, k, ts), i)
  {
    ExpiryIsInvisible(p, k, ts);
    ExpiryIsInvisible(p, k, Without(ts, i));
    RejectionDrops(p, Kept(k), ts, i);
  }

  // --- Retry-After ------------------------------------------------------------------------------------

  /** The bucket after a history. */
  function Final(p: Policy, b: Option<Bucket>, ts: seq<int>): Option<Bucket>
    decreases ts
  {
    if ts == [] then b else Final(p, Some(Paid(p, b, ts[0])), ts[1..])
  }

  lemma {:induction false} RejectionsKeepLevel(p: Policy, b: Option<Bucket>, ts: seq<int>, later: int)
    requires ValidPolicy(p) && Follows(b, ts) && forall i :: 0 <= i < |ts| ==> ts[i] <= later
    requires forall d :: d in Decisions(p, b, ts) ==> !d.allowed
    ensures Level(p, Final(p, b, ts), later) == Level(p, b, later)
    decreases ts
  {
    if ts != [] {
      var ds := Decisions(p, b, ts);
      assert !ds[0].allowed && ds[1..] == Decisions(p, Some(Paid(p, b, ts[0])), ts[1..]);
      RejectionKeepsLevel(p, b, ts[0], later);
      RejectionsKeepLevel(p, Some(Paid(p, b, ts[0])), ts[1..], later);
    }
  }

  lemma Quotient(p: Policy, missing: real)
    requires ValidPolicy(p) && missing > 0.0
    ensures var x := missing / p.refillPerSecond; x > 0.0 && x * p.refillPerSecond == missing
  {
  }

  lemma WholeSeconds(p: Policy, x: real, r: int)
    requires ValidPolicy(p) && x > 0.0 && r == AtLeastOne(Ceil(x))
    ensures r >= 1 && Gain(p, 1000 * r) >= x * p.refillPerSecond
    ensures Gain(p, 1000 * (r - 1)) < x * p.refillPerSecond
  {
    CeilBounds(x);
    GainOfSeconds(p, r);
    var before := r - 1;
    assert before as real < x <= r as real;
    ScaleKeepsOrder(p, x, r as real);
    ScaleKeepsOrder(p, before as real, x);
    GainOfSeconds(p, before);
  }

  /** The reported delay is the least number of whole seconds that refills a token. */
  lemma RetryAfterIsExact(p: Policy, level: real)
    requires ValidPolicy(p) && level < 1.0
    ensures var r := Decide(p, level).retryAfterSeconds;
            && r >= 1
            && level + Gain(p, 1000 * r) >= 1.0
            && level + Gain(p, 1000 * (r - 1)) < 1.0
  {
    Quotient(p, 1.0 - level);
    WholeSeconds(p, (1.0 - level) / p.refillPerSecond, Decide(p, level).retryAfterSeconds);
  }

  lemma {:induction false} LastDecision(p: Policy, b: Option<Bucket>, ts: seq<int>, t: int)
    requires ValidPolicy(p)
    ensures Decisions(p, b, ts + [t]) == Decisions(p, b, ts) + [Decide(p, Level(p, Final(p, b, ts), t))]
    decreases ts
  {
    if ts != [] {
      assert (ts + [t])[1..] == ts[1..] + [t];
      LastDecision(p, Some(Paid(p, b, ts[0])), ts[1..], t);
    }
  }

  /** While no token is left the level grows with time alone. */
  lemma LaterLevel(p: Policy, b: Option<Bucket>, now: int, later: int)
    requires ValidPolicy(p) && now <= later && Level(p, b, now) < 1.0
    requires b.Some? ==> b.value.updatedAt <= now
    ensures Level(p, b, later) == Least(p.capacity as real, Level(p, b, now) + Gain(p, later - now))
  {
    if b.Some? {
      GainAdds(p, now - b.value.updatedAt, later - now);
    }
  }

  lemma RetryLevel(p: Policy, b: Option<Bucket>, now: int, later: int)
    requires ValidPolicy(p) && now <= later && Level(p, b, now) < 1.0
    requires b.Some? ==> b.value.updatedAt <= now
    ensures var r := Decide(p, Level(p, b, now)).retryAfterSeconds;
            && (later >= now + 1000 * r ==> Level(p, b, later) >= 1.0)
            && (later <= now + 1000 * (r - 1) ==> Level(p, b, later) < 1.0)
  {
    var r := Decide(p, Level(p, b, now)).retryAfterSeconds;
    RetryAfterIsExact(p, Level(p, b, now));
    LaterLevel(p, b, now, later);
    if later >= now + 1000 * r {
      GainGrows(p, 1000 * r, later - now);
    }
    if later <= now + 1000 * (r - 1) {
      GainGrows(p, later - now, 1000 * (r - 1));
    }
  }

  /** A request after nothing but rejections finds the level that time alone has brought. */
  lemma AfterRejections(p: Policy, b: Option<Bucket>, ts: seq<int>, later: int)
    requires ValidPolicy(p) && Follows(b, ts + [later])
    requires forall i :: 0 <= i < |ts| ==> !Decisions(p, b, ts + [later])[i].allowed
    ensures Decisions(p, b, ts + [later])[|ts|] == Decide(p, Level(p, b, later))
  {
    LastDecision(p, b, ts, later);
    var all, ds := ts + [later], Decisions(p, b, ts);
    assert forall i :: 0 <= i < |ts| ==> ts[i] == all[i] && ds[i] == Decisions(p, b, all)[i];
    assert all[|ts|] == later;
    RejectionsKeepLevel(p, b, ts, later);
  }

  /** Retry-After is sufficient and tight: after a rejection that reports r seconds, and whatever
      rejected requests follow it (`rejected`), a request r seconds later or more is allowed and
      one at most r - 1 seconds later is still rejected. */
  lemma RetryAfterIsSufficientAndTight(p: Policy, k: Option<Stored>, rejected: seq<int>, later: int)
    requires ValidPolicy(p) && StoredOk(p, k) && rejected != [] && Follows(Kept(k), rejected + [later])
    requires forall i :: 0 <= i < |rejected| ==> !ExpiringDecisions(p, k, rejected + [later])[i].allowed
    ensures var ds := ExpiringDecisions(p, k, rejected + [later]);
            var r := ds[0].retryAfterSeconds;
            && (later >= rejected[0] + 1000 * r ==> ds[|rejected|].allowed)
            && (later <= rejected[0] + 1000 * (r - 1) ==> !ds[|rejected|].allowed)
  {
    var all := rejected + [later];
    ExpiryIsInvisible(p, k, all);
    AfterRejections(p, Kept(k), rejected, later);
    assert all[0] == rejected[0] && all[|rejected|] == later;
    assert Decisions(p, Kept(k), all)[0] == Decide(p, Level(p, Kept(k), rejected[0]));
    RetryLevel(p, Kept(k), rejected[0], later);
  }

  // --- Bursts ---------------------------------------------------------------------------------------

  /** Requests at one instant. */
  function Burst(now: int, n: nat): (ts: seq<int>)
    ensures |ts| == n
  {
    if n == 0 then [] else [now] + Burst(now, n - 1)
  }

  lemma LevelAtOnce(p: Policy, b: Option<Bucket>, now: int)
    requires ValidPolicy(p) && BucketOk(p, b)
    ensures Level(p, Some(Paid(p, b, now)), now) == Pay(Level(p, b, now))
  {
    LevelInBounds(p, b, now);
    GainOfZero(p);
  }

  lemma {:induction false} BurstTakesTokens(p: Policy, b: Option<Bucket>, now: int, n: nat, i: nat)
    requires ValidPolicy(p) && BucketOk(p, b) && i < n
    ensures Decisions(p, b, Burst(now, n))[i].allowed <==> (i + 1) as real <= Level(p, b, now)
    decreases n
  {
    if i > 0 {
      LevelInBounds(p, b, now);
      LevelAtOnce(p, b, now);
      BurstTakesTokens(p, Some(Paid(p, b, now)), now, n - 1, i - 1);
    }
  }

  /** The reported remainder is exact: of any further requests at the same instant exactly that
      many are allowed. */
  lemma RemainingIsExact(p: Policy, k: Option<Stored>, now: int, n: nat, i: nat)
    requires ValidPolicy(p) && StoredOk(p, k) && i < n
    ensures var ds := ExpiringDecisions(p, k, Burst(now, n + 1));
            ds[i + 1].allowed <==> i < ds[0].remaining
  {
    var b := Kept(k);
    ExpiryIsInvisible(p, k, Burst(now, n + 1));
    LevelInBounds(p, b, now);
    LevelAtOnce(p, b, now);
    BurstTakesTokens(p, Some(Paid(p, b, now)), now, n, i);
  }

  /** A key that was never used, or not for long enough, allows exactly its capacity at once. */
  lemma FreshKeyAllowsCapacity(p: Policy, now: int, n: nat, i: nat)
    requires ValidPolicy(p) && i < n
    ensures ExpiringDecisions(p, None, Burst(now, n))[i].allowed <==> i < p.capacity
  {
    ExpiryIsInvisible(p, None, Burst(now, n));
    BurstTakesTokens(p, None, now, n, i);
  }

  /** The key lives for the whole seconds in which an empty bucket would fill twice. */
  lemma KeyOutlivesTwoRefills(p: Policy)
    requires ValidPolicy(p)
    ensures Gain(p, 1000 * TtlSeconds(p)) >= 2.0 * p.capacity as real
    ensures Gain(p, 1000 * (TtlSeconds(p) - 1)) < 2.0 * p.capacity as real
  {
    Quotient(p, p.capacity as real);
    var x := (p.capacity as real / p.refillPerSecond) * 2.0;
    assert x > 0.0 && x * p.refillPerSecond == 2.0 * p.capacity as real;
    WholeSeconds(p, x, TtlSeconds(p));
  }
}
