/** Bounded binary searches over chain history: block by time, first transaction, first code. */
module Bisection {
  import opened Common

  /** `n` halved `k` times, rounding down: what `k` probes leave of a window of `n`. */
  function Halve(n: nat, k: nat): nat {
    if k == 0 then n else Halve(n, k - 1) / 2
  }

  /** Halving `k` times divides by 2^k, rounding down. */
  lemma {:induction false} HalveIsQuotient(n: nat, k: nat)
    ensures Halve(n, k) * Pow2(k) <= n < (Halve(n, k) + 1) * Pow2(k)
  {
    if k > 0 {
      HalveIsQuotient(n, k - 1);
      HalfOfQuotient(n, Halve(n, k - 1), Halve(n, k), Pow2(k - 1));
    }
  }

  lemma HalfOfQuotient(n: nat, h: nat, half: nat, p: nat)
    requires h * p <= n < (h + 1) * p && half <= h
    requires h == 2 * half || h == 2 * half + 1
    ensures half * (2 * p) <= n < (half + 1) * (2 * p)
  {
    assert half * (2 * p) == (2 * half) * p;
    assert (half + 1) * (2 * p) == (2 * half) * p + p + p;
    assert (2 * half + 1) * p == (2 * half) * p + p;
    assert (2 * half + 2) * p == (2 * half) * p + p + p;
  }

  // ----- block by time

  /** Block timestamps never fall. */
  ghost predicate MonotoneTimes(ts: int -> int, low: int, head: int) {
    forall a, b :: low <= a <= b <= head ==> ts(a) <= ts(b)
  }

  /** `b` is the last block in the range mined at or before `target`. */
  ghost predicate LastAtOrBefore(ts: int -> int, low: int, head: int, target: int, b: int) {
    low <= b <= head && ts(b) <= target && forall c :: b < c <= head ==> ts(c) > target
  }

  /** `answer` is no later than the last block at or before `target`, and at most `slack` short of it. */
  ghost predicate CloseBelow(ts: int -> int, low: int, head: int, target: int, answer: int,
                             slack: nat) {
    && low <= answer <= head && ts(answer) <= target
    && forall last :: LastAtOrBefore(ts, low, head, target, last) ==> answer <= last <= answer + slack
  }

  method SearchByTime(ts: int -> int, target: int, low: nat, head: nat,
                      maxIters: nat) returns (answer: nat)
    requires low <= head && MonotoneTimes(ts, low, head) && ts(low) <= target
    ensures CloseBelow(ts, low, head, target, answer, Halve(head - low + 1, maxIters))
  {
    var lo: int, hi: int := low, head;
    answer := low;
    var i := 0;
    while i < maxIters && lo <= hi
      invariant i <= maxIters && low <= lo <= hi + 1 <= head + 1
      invariant low <= answer <= head && ts(answer) <= target && (answer == lo - 1 || answer == lo == low)
      invariant forall c :: hi < c <= head ==> ts(c) > target
      invariant hi - lo + 1 <= Halve(head - low + 1, i)
      decreases maxIters - i
    {
      var mid := lo + (hi - lo) / 2;
      if ts(mid) <= target {
        answer := mid;
        lo := mid + 1;
      } else {
        forall c | mid - 1 < c <= head ensures ts(c) > target {
          assert ts(mid) <= ts(c);
        }
        hi := mid - 1;
      }
      i := i + 1;
    }
    ghost var slack := Halve(head - low + 1, maxIters);
    forall last | LastAtOrBefore(ts, low, head, target, last) ensures answer <= last <= answer + slack {
      assert last < answer ==> ts(answer) > target;
      assert last > hi ==> ts(last) > target;
    }
  }

  /** The circumstances of a lookup: the head it saw, the lowest block and the cap on probes. */
  datatype Lookup = Lookup(head: nat, minBlock: nat, maxIters: nat)

  /**
   * What a lookup may answer: the head for a target not before it, the lowest block for one not
   * after that, and otherwise a block never after the target and at most range / 2^maxIters short.
   */
  ghost predicate Answers(ts: int -> int, target: int, q: Lookup, answer: int) {
    if target >= ts(q.head) then answer == q.head
    else
      && q.minBlock <= q.head
      && (if target <= ts(q.minBlock) then answer == q.minBlock
          else CloseBelow(ts, q.minBlock, q.head, target, answer, Halve(q.head - q.minBlock + 1, q.maxIters)))
  }

  /** Answers about one chain, remembered per target second for good. */
  class BlockClock {
    /** The chain's block timestamps. */
    const ts: int -> int
    var cache: map<int, nat>
    /** The lookup each remembered answer came from. */
    ghost var lookups: map<int, Lookup>

    ghost predicate Valid()
      reads this
    {
      forall t :: t in cache ==> t in lookups && Answers(ts, t, lookups[t], cache[t])
    }

    constructor (ts: int -> int)
      ensures Valid() && this.ts == ts && cache == map[]
    {
      this.ts := ts;
      cache, lookups := map[], map[];
    }

    /** A remembered answer is returned as it was; a fresh one is remembered. */
    method BlockAtTime(target: int, q: Lookup) returns (r: Result<nat>)
      requires Valid() && MonotoneTimes(ts, q.minBlock, q.head)
      modifies this
      ensures Valid()
      ensures target in old(cache) ==> r == Ok(old(cache)[target]) && cache == old(cache) && lookups == old(lookups)
      ensures target !in old(cache) ==> (r.Err? <==> target < ts(q.head) && q.minBlock > q.head)
      ensures target !in old(cache) && r.Ok? ==>
        && Answers(ts, target, q, r.value)
        && cache == old(cache)[target := r.value] && lookups == old(lookups)[target := q]
      ensures r.Err? ==> cache == old(cache) && lookups == old(lookups)
    {
      if target in cache {
        return Ok(cache[target]);
      }
      if target >= ts(q.head) {
        Remember(target, q, q.head);
        return Ok(q.head);
      }
      if q.minBlock > q.head {
        return Err("block not found");
      }
      if target <= ts(q.minBlock) {
        Remember(target, q, q.minBlock);
        return Ok(q.minBlock);
      }
      var answer := SearchByTime(ts, target, q.minBlock, q.head, q.maxIters);
      Remember(target, q, answer);
      r := Ok(answer);
    }

    method Remember(target: int, q: Lookup, answer: nat)
      requires Valid() && Answers(ts, target, q, answer)
      modifies this
      ensures Valid() && cache == old(cache)[target := answer] && lookups == old(lookups)[target := q]
    {
      cache := cache[target := answer];
      lookups := lookups[target := q];
    }
  }

  // ----- what a remembered answer is worth once the chain has grown

  /** An answer from a head past the target stays as close as it was, however long the chain grows. */
  lemma RememberedStaysClose(ts: int -> int, target: int, q: Lookup, answer: int, head: nat)
    requires Answers(ts, target, q, answer) && q.head <= head && MonotoneTimes(ts, q.minBlock, head)
    requires ts(q.minBlock) < target < ts(q.head)
    ensures CloseBelow(ts, q.minBlock, head, target, answer, Halve(q.head - q.minBlock + 1, q.maxIters))
  {
    forall last | LastAtOrBefore(ts, q.minBlock, head, target, last)
      ensures LastAtOrBefore(ts, q.minBlock, q.head, target, last)
    {
      assert last >= q.head ==> ts(q.head) <= ts(last);
    }
  }

  /**
   * An answer from a head not past the target is that head. It is still the last block at or
   * before the target exactly when no such block has been mined since; otherwise it falls short
   * by exactly the blocks mined since at or before the target.
   */
  lemma RememberedHeadIff(ts: int -> int, target: int, q: Lookup, answer: int, head: nat)
    requires Answers(ts, target, q, answer) && target >= ts(q.head)
    requires q.minBlock <= q.head <= head && MonotoneTimes(ts, q.minBlock, head)
    ensures LastAtOrBefore(ts, q.minBlock, head, target, answer) <==> (head == q.head || ts(q.head + 1) > target)
    ensures forall last, c :: LastAtOrBefore(ts, q.minBlock, head, target, last) && answer < c <= head ==>
      answer <= last && (ts(c) <= target <==> c <= last)
  {
    if head > q.head && ts(q.head + 1) > target {
      forall c | q.head < c <= head ensures ts(c) > target {
        assert ts(q.head + 1) <= ts(c);
      }
    }
  }

  // ----- first block with a property that stays

  ghost predicate Stays(has: int -> bool, until: int) {
    forall a, b :: 0 <= a <= b <= until && has(a) ==> has(b)
  }

  ghost predicate IsFirst(has: int -> bool, until: int, b: int) {
    0 <= b <= until && has(b) && forall c :: 0 <= c < b ==> !has(c)
  }

  /** `found` has the property, and the first block that does is at most `slack` before it. */
  ghost predicate CloseAbove(has: int -> bool, until: int, found: int, slack: int) {
    && 0 <= found <= until && has(found)
    && forall first :: IsFirst(has, until, first) ==> first <= found <= first + slack
  }

  /** The blocks by which the account had sent a transaction. */
  function HasSent(nonce: int -> nat): int -> bool {
    b => nonce(b) >= 1
  }

  /** An upper bound on the creator's first transaction block, at most launch / 2^maxIters above it. */
  method FirstTxBlock(nonce: int -> nat, launchBlock: nat,
                      maxIters: nat) returns (r: Option<nat>)
    requires Stays(HasSent(nonce), launchBlock)
    ensures r.None? <==> nonce(launchBlock) == 0
    ensures r.Some? ==> CloseAbove(HasSent(nonce), launchBlock, r.value, Halve(launchBlock, maxIters))
  {
    if nonce(launchBlock) == 0 {
      return None;
    }
    ghost var has := HasSent(nonce);
    var lo, hi, i := 0, launchBlock, 0;
    while i < maxIters && lo < hi
      invariant 0 <= lo <= hi <= launchBlock && i <= maxIters
      invariant has(hi)
      invariant forall c :: 0 <= c < lo ==> !has(c)
      invariant hi - lo <= Halve(launchBlock, i)
      decreases maxIters - i
    {
      var mid := (lo + hi) / 2;
      if nonce(mid) >= 1 {
        hi := mid;
      } else {
        assert !has(mid);
        lo := mid + 1;
      }
      i := i + 1;
    }
    ghost var slack := Halve(launchBlock, maxIters);
    forall first | IsFirst(has, launchBlock, first) ensures first <= hi <= first + slack {
      assert !(hi < first) && !(first < lo);
    }
    r := Some(hi);
  }

  // ----- token age at pool creation

  function Round(x: real): int {
    (x + 0.5).Floor
  }

  datatype TokenAge = TokenAge(ageSec: Option<int>, deployBlock: Option<nat>, iters: nat)

  function AgeOf(poolBlock: int, deploy: int, blockSeconds: real): int {
    Round((poolBlock - deploy) as real * blockSeconds)
  }

  /** The whole number of seconds nearest to `seconds`, halves up. */
  ghost predicate Nearest(age: int, seconds: real) {
    age as real - 0.5 <= seconds < age as real + 0.5
  }

  /** The first block of the search window. */
  function WindowLow(poolBlock: nat, windowBlocks: nat): nat {
    if poolBlock > windowBlocks then poolBlock - windowBlocks else 0
  }

  /**
   * `has` says where the token has code and `answers` whether the node answers at a block. Unless
   * a call fails, the deployment block found is at most (window - 1) / 2^(maxIters - 2) after the
   * first block with code, the two probes of the window's ends counting; a token older than the window gets no age.
   */
  method ComputeTokenAgeAtPool(has: int -> bool, answers: int -> bool, poolBlock: nat,
                               blockSeconds: real, windowBlocks: nat, maxIters: nat)
    returns (r: TokenAge)
    requires Stays(has, poolBlock)
    ensures r.ageSec.Some? <==> r.deployBlock.Some?
    ensures (forall b :: answers(b)) ==> (r.deployBlock.None? <==> has(Max(0, poolBlock - windowBlocks)))
    ensures r.deployBlock.Some? ==> Nearest(r.ageSec.value, (poolBlock - r.deployBlock.value) as real * blockSeconds)
    ensures r.deployBlock.Some? && has(poolBlock) ==>
      CloseAbove(has, poolBlock, r.deployBlock.value,
                 Halve(Max(0, Min(poolBlock, windowBlocks) - 1), Max(0, maxIters - 2)))
    ensures r.deployBlock.Some? && !has(poolBlock) ==> r.deployBlock.value == poolBlock
    ensures r.iters <= Max(2, maxIters)
  {
    var low := WindowLow(poolBlock, windowBlocks);
    if !answers(low) {
      return TokenAge(None, None, 0);
    }
    if has(low) {
      return TokenAge(None, None, 1);
    }
    if !answers(poolBlock) {
      return TokenAge(None, None, 0);
    }
    if !has(poolBlock) {
      assert 0.0 * blockSeconds == 0.0;
      return TokenAge(Some(0), Some(poolBlock), 2);
    }
    var deploy, iters := SearchDeployment(has, answers, poolBlock, low, maxIters);
    if deploy.None? {
      return TokenAge(None, None, iters);
    }
    r := TokenAge(Some(AgeOf(poolBlock, deploy.value, blockSeconds)), deploy, iters);
  }

  method SearchDeployment(has: int -> bool, answers: int -> bool, poolBlock: nat, low: nat,
                          maxIters: nat)
    returns (deploy: Option<nat>, iters: nat)
    requires Stays(has, poolBlock) && low < poolBlock && !has(low) && has(poolBlock)
    ensures (forall b :: answers(b)) ==> deploy.Some?
    ensures deploy.Some? ==> CloseAbove(has, poolBlock, deploy.value, Halve(poolBlock - low - 1, Max(0, maxIters - 2)))
    ensures iters <= Max(2, maxIters)
  {
    iters := 2;
    var lo, hi := low, poolBlock;
    ghost var k := 0;
    while hi - lo > 1 && iters < maxIters
      invariant low <= lo < hi <= poolBlock && iters == 2 + k && (k > 0 ==> iters <= maxIters)
      invariant !has(lo) && has(hi)
      invariant hi - lo - 1 <= Halve(poolBlock - low - 1, k)
      decreases maxIters - iters
    {
      var mid := lo + (hi - lo) / 2;
      iters := iters + 1;
      if !answers(mid) {
        return None, iters;
      }
      if has(mid) {
        hi := mid;
      } else {
        lo := mid;
      }
      k := k + 1;
    }
    ghost var slack := Halve(poolBlock - low - 1, Max(0, maxIters - 2));
    forall first | IsFirst(has, poolBlock, first) ensures first <= hi <= first + slack {
      assert !(hi < first) && !(first <= lo);
    }
    deploy := Some(hi);
  }

  /** A found deployment block never makes the token look older than it is. */
  lemma AgeNeverOverstated(has: int -> bool, poolBlock: nat, found: int, slack: int, first: int,
                           blockSeconds: real, age: int, trueAge: int)
    requires CloseAbove(has, poolBlock, found, slack) && IsFirst(has, poolBlock, first) && blockSeconds >= 0.0
    requires Nearest(age, (poolBlock - found) as real * blockSeconds)
    requires Nearest(trueAge, (poolBlock - first) as real * blockSeconds)
    ensures age <= trueAge
  {
    assert (poolBlock - found) as real * blockSeconds <= (poolBlock - first) as real * blockSeconds;
  }
}
