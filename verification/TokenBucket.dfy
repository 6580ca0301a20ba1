/** The refilling token bucket that limits how fast RPC requests start. */
module TokenBuckets {
  import opened Common

  /** The slack allowed when comparing tokens with a demand. */
  const EPSILON := 0.000000001

  /** Tokens and the latest clock reading (milliseconds) they account for. */
  datatype Bucket = Bucket(capacity: real, refillPerSec: real, tokens: real, last: real)

  ghost predicate Sound(b: Bucket) {
    && b.capacity > 0.0 && b.refillPerSec > 0.0
    && -EPSILON <= b.tokens <= b.capacity
  }

  function MinReal(a: real, b: real): real {
    if a <= b then a else b
  }

  function Ceil(x: real): int {
    -((-x).Floor)
  }

  /** Tokens refilled between two clock readings. */
  function Refilled(b: Bucket, from: real, until: real): real {
    (until - from) / 1000.0 * b.refillPerSec
  }

  /** A reading that is not later than the last one changes nothing. */
  function Refill(b: Bucket, t: real): Bucket {
    if (t - b.last) / 1000.0 <= 0.0 then b
    else b.(tokens := MinReal(b.capacity, b.tokens + Refilled(b, b.last, t)), last := t)
  }

  function TryTake(b: Bucket, t: real, n: real): (Bucket, bool) {
    var r := Refill(b, t);
    if r.tokens + EPSILON >= n then (r.(tokens := r.tokens - n), true) else (r, false)
  }

  function MsUntilAvailable(b: Bucket, t: real, n: real): int
    requires b.refillPerSec > 0.0
  {
    var r := Refill(b, t);
    if r.tokens + EPSILON >= n then 0 else Ceil((n - r.tokens) / r.refillPerSec * 1000.0)
  }

  class TokenBucket {
    const capacity: real
    const refillPerSec: real
    var tokens: real
    var last: real

    ghost function Model(): Bucket
      reads this
    {
      Bucket(capacity, refillPerSec, tokens, last)
    }

    constructor (capacity: real, refillPerSec: real, now: real)
      requires capacity > 0.0 && refillPerSec > 0.0
      ensures Model() == Bucket(capacity, refillPerSec, capacity, now) && Sound(Model())
    {
      this.capacity := capacity;
      this.refillPerSec := refillPerSec;
      tokens := capacity;
      last := now;
    }

    method RefillAt(now: real)
      modifies this
      ensures Model() == Refill(old(Model()), now)
    {
      var elapsed := (now - last) / 1000.0;
      if elapsed <= 0.0 {
        return;
      }
      tokens := MinReal(capacity, tokens + elapsed * refillPerSec);
      last := now;
    }

    method Take(now: real, n: real) returns (ok: bool)
      modifies this
      ensures (Model(), ok) == TryTake(old(Model()), now, n)
    {
      RefillAt(now);
      if tokens + EPSILON >= n {
        tokens := tokens - n;
        return true;
      }
      return false;
    }

    method WaitFor(now: real, n: real) returns (ms: int)
      requires Sound(Model())
      modifies this
      ensures Model() == Refill(old(Model()), now) && ms == MsUntilAvailable(old(Model()), now, n)
    {
      RefillAt(now);
      if tokens + EPSILON >= n {
        return 0;
      }
      ms := Ceil((n - tokens) / refillPerSec * 1000.0);
    }
  }

  /** Construction rejects a bucket that could never fill or never refill. */
  method NewTokenBucket(capacity: real, refillPerSec: real,
                        now: real) returns (r: Result<TokenBucket>)
    ensures r.Ok? <==> capacity > 0.0 && refillPerSec > 0.0
    ensures r.Ok? ==> fresh(r.value) && r.value.Model() == Bucket(capacity, refillPerSec, capacity, now) && Sound(r.value.Model())
  {
    if capacity <= 0.0 {
      return Err("TokenBucket: capacity must be > 0");
    }
    if refillPerSec <= 0.0 {
      return Err("TokenBucket: refillPerSec must be > 0");
    }
    var b := new TokenBucket(capacity, refillPerSec, now);
    r := Ok(b);
  }

  // ----- every run of the bucket

  /** One use of the bucket at a clock reading: an attempt to take, or a look. */
  datatype Use = Attempt(t: real, n: real) | Look(t: real)

  function After(b: Bucket, uses: seq<Use>): Bucket
    decreases |uses|
  {
    if uses == [] then b else After(AfterOne(b, uses[0]), uses[1..])
  }

  function AfterOne(b: Bucket, u: Use): Bucket {
    match u
    case Attempt(t, n) => TryTake(b, t, n).0
    case Look(t) => Refill(b, t)
  }

  function TakenOne(b: Bucket, u: Use): real {
    match u
    case Attempt(t, n) => if TryTake(b, t, n).1 then n else 0.0
    case Look(_) => 0.0
  }

  /** Tokens handed out over a run. */
  function Taken(b: Bucket, uses: seq<Use>): real
    decreases |uses|
  {
    if uses == [] then 0.0 else TakenOne(b, uses[0]) + Taken(AfterOne(b, uses[0]), uses[1..])
  }

  ghost predicate Within(uses: seq<Use>, from: real, until: real) {
    forall i :: 0 <= i < |uses| ==> from <= uses[i].t <= until && (uses[i].Attempt? ==> uses[i].n >= 0.0)
  }

  lemma SoundAfterOne(b: Bucket, u: Use)
    requires Sound(b) && (u.Attempt? ==> u.n >= 0.0)
    ensures Sound(AfterOne(b, u))
    ensures AfterOne(b, u).capacity == b.capacity && AfterOne(b, u).refillPerSec == b.refillPerSec
  {
    RefillGain(b, u.t);
  }

  lemma RefillGain(b: Bucket, t: real)
    requires b.refillPerSec > 0.0
    ensures t > b.last ==> Refilled(b, b.last, t) > 0.0
  {
    if t > b.last {
      var e := (t - b.last) / 1000.0;
      assert e > 0.0;
      assert e * b.refillPerSec > 0.0;
    }
  }

  /** What the bucket could have handed out by `until` if it were never full. */
  function Potential(b: Bucket, until: real): real {
    b.tokens + (if until > b.last then Refilled(b, b.last, until) else 0.0)
  }

  lemma RefilledSplits(b: Bucket, x: real, y: real, z: real)
    ensures Refilled(b, x, y) + Refilled(b, y, z) == Refilled(b, x, z)
  {
    var p, q, r := (y - x) / 1000.0, (z - y) / 1000.0, b.refillPerSec;
    assert p * r + q * r == (p + q) * r;
  }

  lemma NoTime(elapsed: real, rate: real)
    requires elapsed == 0.0
    ensures elapsed / 1000.0 * rate == 0.0
  {
    var seconds := elapsed / 1000.0;
    assert seconds == 0.0;
  }

  lemma NothingAt(b: Bucket, t: real)
    ensures Refilled(b, t, t) == 0.0
  {
    NoTime(t - t, b.refillPerSec);
  }

  lemma SameRate(b: Bucket, r: Bucket, from: real, until: real)
    requires b.refillPerSec == r.refillPerSec
    ensures Refilled(b, from, until) == Refilled(r, from, until)
  {
  }

  /** Refilling early wins nothing over refilling late. */
  lemma PotentialRefilled(b: Bucket, t: real, until: real)
    requires Sound(b) && t <= until
    ensures Potential(Refill(b, t), until) <= Potential(b, until)
  {
    if t > b.last {
      RefilledSplits(b, b.last, t, until);
      SameRate(b, Refill(b, t), t, until);
      NothingAt(b, t);
    }
  }

  /** What is taken leaves the potential. */
  lemma PotentialTaken(b: Bucket, c: Bucket, until: real)
    requires b.last == c.last && b.refillPerSec == c.refillPerSec
    ensures Potential(b, until) - b.tokens == Potential(c, until) - c.tokens
  {
    SameRate(b, c, b.last, until);
  }

  lemma PotentialSpent(b: Bucket, u: Use, until: real)
    requires Sound(b) && u.t <= until
    ensures TakenOne(b, u) + Potential(AfterOne(b, u), until) <= Potential(b, until)
  {
    PotentialRefilled(b, u.t, until);
    PotentialTaken(Refill(b, u.t), AfterOne(b, u), until);
  }

  lemma {:induction false} TakenWithinPotential(b: Bucket, uses: seq<Use>, from: real,
        until: real)
    requires Sound(b) && Within(uses, from, until)
    ensures Taken(b, uses) <= Potential(b, until) + EPSILON
    decreases |uses|
  {
    if uses == [] {
      RefillGain(b, until);
    } else {
      SoundAfterOne(b, uses[0]);
      PotentialSpent(b, uses[0], until);
      TakenWithinPotential(AfterOne(b, uses[0]), uses[1..], from, until);
    }
  }

  /** Refilling first changes neither what a use takes nor what it leaves. */
  lemma RefillFirst(b: Bucket, u: Use)
    ensures TakenOne(Refill(b, u.t), u) == TakenOne(b, u) && AfterOne(Refill(b, u.t), u) == AfterOne(b, u)
  {
    assert Refill(Refill(b, u.t), u.t) == Refill(b, u.t);
  }

  lemma RefilledMonotone(b: Bucket, from: real, x: real, until: real)
    requires b.refillPerSec > 0.0 && from <= x
    ensures Refilled(b, x, until) <= Refilled(b, from, until)
  {
    RefilledSplits(b, from, x, until);
    var e := (x - from) / 1000.0;
    assert e * b.refillPerSec >= 0.0;
  }

  /**
   * The rate limit. Whatever the state and however the clock behaves, uses whose readings lie in
   * an interval take at most the capacity, the rate times the interval's seconds, and 1e-9.
   */
  lemma RateBound(b: Bucket, uses: seq<Use>, from: real, until: real)
    requires Sound(b) && Within(uses, from, until) && from <= until
    ensures Taken(b, uses) <= b.capacity + (until - from) / 1000.0 * b.refillPerSec + 0.000000001
  {
    TakenBound(b, uses, from, until);
    GainIs(b, from, until, (until - from) / 1000.0 * b.refillPerSec);
  }

  lemma GainIs(b: Bucket, from: real, until: real, gain: real)
    requires gain == (until - from) / 1000.0 * b.refillPerSec
    ensures Refilled(b, from, until) == gain
  {
  }

  lemma TakenBound(b: Bucket, uses: seq<Use>, from: real, until: real)
    requires Sound(b) && Within(uses, from, until) && from <= until
    ensures Taken(b, uses) <= b.capacity + Refilled(b, from, until) + EPSILON
  {
    if uses == [] {
      FullPotential(b.(last := from), from, until);
    } else {
      var u := uses[0];
      var r := Refill(b, u.t);
      SoundAfterOne(b, Look(u.t));
      TakenAfterRefill(b, uses);
      TakenWithinPotential(r, uses, from, until);
      FullPotential(r, from, until);
      SameRate(b, r, from, until);
    }
  }

  lemma TakenAfterRefill(b: Bucket, uses: seq<Use>)
    requires uses != []
    ensures Taken(Refill(b, uses[0].t), uses) == Taken(b, uses)
  {
    RefillFirst(b, uses[0]);
  }

  /** A sound bucket already refilled inside the interval has at most its capacity and the refill left. */
  lemma FullPotential(b: Bucket, from: real, until: real)
    requires Sound(b) && from <= b.last && from <= until
    ensures Potential(b, until) <= b.capacity + Refilled(b, from, until)
    ensures Refilled(b, from, until) >= 0.0
  {
    RefilledMonotone(b, from, until, until);
    NothingAt(b, until);
    RefilledMonotone(b, from, b.last, until);
  }

  /**
   * Left alone until `t`, a bucket gains the rate times the elapsed seconds, up to its capacity and
   * no less; an attempt then succeeds exactly if that covers the demand up to 1e-9, and takes it.
   */
  lemma IdleGain(b: Bucket, t: real, n: real)
    requires t >= b.last && b.tokens <= b.capacity
    ensures var full := b.tokens + (t - b.last) / 1000.0 * b.refillPerSec;
            var held := if full <= b.capacity then full else b.capacity;
            && Refill(b, t) == Bucket(b.capacity, b.refillPerSec, held, t)
            && (TryTake(b, t, n).1 <==> held + 0.000000001 >= n)
            && TryTake(b, t, n).0 == Bucket(b.capacity, b.refillPerSec, if TryTake(b, t, n).1 then held - n else held, t)
  {
    if t == b.last {
      NoTime(t - b.last, b.refillPerSec);
    }
  }

  // ----- waiting

  lemma CeilBelow(x: real)
    ensures (Ceil(x) as real) < x + 1.0
  {
  }

  lemma ShortWait(need: real, rate: real, ms: real)
    requires rate > 0.0 && need > 0.0 && ms < need / rate * 1000.0
    ensures ms / 1000.0 * rate < need
  {
    var w := need / rate;
    assert w * rate == need;
    assert (w - ms / 1000.0) * rate > 0.0;
    assert (w - ms / 1000.0) * rate == w * rate - ms / 1000.0 * rate;
  }

  /** The advised wait is not too long: a millisecond sooner the tokens are still short of the demand. */
  lemma WaitIsTight(b: Bucket, t: real, n: real, sooner: real)
    requires Sound(b) && MsUntilAvailable(b, t, n) > 0
    requires sooner <= (if t > b.last then t else b.last) + MsUntilAvailable(b, t, n) as real - 1.0
    ensures Refill(Refill(b, t), sooner).tokens < n
  {
    var r := Refill(b, t);
    SoundAfterOne(b, Look(t));
    if sooner > r.last {
      CeilBelow((n - r.tokens) / r.refillPerSec * 1000.0);
      ShortWait(n - r.tokens, r.refillPerSec, sooner - r.last);
    }
  }

  lemma CeilAbove(x: real)
    ensures Ceil(x) as real >= x
  {
  }

  lemma WaitArithmetic(need: real, rate: real, ms: real)
    requires rate > 0.0 && need > 0.0 && ms >= need / rate * 1000.0
    ensures ms / 1000.0 * rate >= need && ms > 0.0
  {
    var w := need / rate;
    assert w > 0.0;
    assert w * rate == need;
    assert ms / 1000.0 >= w;
    assert (ms / 1000.0) * rate >= w * rate;
  }

  /**
   * Waiting as long as advised makes the next take succeed, exactly when the capacity can ever
   * hold the demand (up to the comparison slack).
   */
  lemma WaitSufficesIff(b: Bucket, t: real, n: real, later: real)
    requires Sound(b)
    requires later >= (if t > b.last then t else b.last) + MsUntilAvailable(b, t, n) as real
    ensures TryTake(Refill(b, t), later, n).1 <==> b.capacity + EPSILON >= n
  {
    var r := Refill(b, t);
    SoundAfterOne(b, Look(t));
    SoundAfterOne(r, Look(later));
    if b.capacity + EPSILON >= n {
      if r.tokens + EPSILON >= n {
        RefillGain(r, later);
      } else {
        var need := n - r.tokens;
        CeilAbove(need / r.refillPerSec * 1000.0);
        var ms := later - r.last;
        WaitArithmetic(need, r.refillPerSec, ms);
        assert Refilled(r, r.last, later) >= need;
      }
    }
  }
}
