/** The rate limit over every run of the scheduler, between any two uses of the token bucket. */
module SchedulerRate {
  import opened Common
  import opened TokenBuckets
  import opened Scheduling

  lemma {:induction false} TakenConcat(b: Bucket, u: seq<Use>, v: seq<Use>)
    ensures Taken(b, u + v) == Taken(b, u) + Taken(After(b, u), v)
    ensures After(b, u + v) == After(After(b, u), v)
    decreases |u|
  {
    if u == [] {
      assert u + v == v;
    } else {
      assert (u + v)[1..] == u[1..] + v;
      TakenConcat(AfterOne(b, u[0]), u[1..], v);
    }
  }

  lemma TakenSnoc(b: Bucket, u: seq<Use>, x: Use)
    ensures Taken(b, u + [x]) == Taken(b, u) + TakenOne(After(b, u), x)
    ensures After(b, u + [x]) == AfterOne(After(b, u), x)
  {
    TakenConcat(b, u, [x]);
    assert [x][1..] == [];
    assert Taken(AfterOne(After(b, u), x), []) == 0.0;
  }

  /** How many of the jobs had started by the time the bucket had been used `n` times. */
  function StartsBy(starts: seq<Start>, n: nat): nat {
    if starts == [] then 0
    else StartsBy(starts[..|starts| - 1], n) + (if starts[|starts| - 1].uses <= n then 1 else 0)
  }

  lemma {:induction false} StartsByAll(starts: seq<Start>, n: nat)
    requires forall i :: 0 <= i < |starts| ==> starts[i].uses <= n
    ensures StartsBy(starts, n) == |starts|
  {
    if starts != [] {
      StartsByAll(starts[..|starts| - 1], n);
    }
  }

  /** Every token taken started a job, and every job was started by a token. */
  ghost predicate Paid(b: Bucket, s: State) {
    && s.bucket == After(b, s.uses)
    && (forall i :: 0 <= i < |s.starts| ==> s.starts[i].uses <= |s.uses|)
    && (forall i :: 0 <= i < |s.uses| && s.uses[i].Attempt? ==> s.uses[i].n == 1.0)
    && (forall n: nat :: n <= |s.uses| ==> StartsBy(s.starts, n) as real == Taken(b, s.uses[..n]))
  }

  /** A job started by the last use was not started before it. */
  lemma EarlierStarts(s: State, r: State, n: nat)
    requires s.uses <= r.uses && n <= |s.uses| < |r.uses|
    requires r.starts == s.starts
          || (|r.starts| == |s.starts| + 1 && r.starts[..|s.starts|] == s.starts && r.starts[|s.starts|].uses == |r.uses|)
    ensures StartsBy(r.starts, n) == StartsBy(s.starts, n) && r.uses[..n] == s.uses[..n]
  {
  }

  /** One more use: a successful attempt starts a job, anything else does not. */
  lemma PaidUse(b: Bucket, s: State, u: Use, r: State)
    requires Paid(b, s) && (u.Attempt? ==> u.n == 1.0)
    requires r.uses == s.uses + [u] && r.bucket == AfterOne(s.bucket, u)
    requires if TakenOne(s.bucket, u) == 0.0 then r.starts == s.starts
             else |r.starts| == |s.starts| + 1 && r.starts[..|s.starts|] == s.starts && r.starts[|s.starts|].uses == |r.uses|
    ensures Paid(b, r)
  {
    TakenSnoc(b, s.uses, u);
    StartsByAll(s.starts, |s.uses|);
    StartsByAll(r.starts, |r.uses|);
    assert s.uses[..|s.uses|] == s.uses && r.uses[..|r.uses|] == r.uses;
    assert Taken(b, s.uses) == |s.starts| as real;
    forall n: nat | n <= |r.uses| ensures StartsBy(r.starts, n) as real == Taken(b, r.uses[..n]) {
      if n <= |s.uses| {
        EarlierStarts(s, r, n);
      }
    }
  }

  lemma {:induction false} LoopPaid(b: Bucket, s: State, clock: nat -> real, spawn: nat -> seq<Submission>, k: nat)
    requires Paid(b, s) && s.bucket.refillPerSec > 0.0
    ensures Paid(b, Loop(s, clock, spawn, k)) && s.uses <= Loop(s, clock, spawn, k).uses
    decreases s.maxInFlight - s.inFlight
  {
    if s.items != [] && s.inFlight < s.maxInFlight {
      var (s1, ok) := Attempted(s, clock(k));
      var a := Attempt(clock(k), 1.0);
      if ok {
        var s2 := StartHead(s1);
        PaidUse(b, s, a, s2);
        SubmitAllKeeps(s2, spawn(k));
        LoopPaid(b, SubmitAll(s2, spawn(k)), clock, spawn, k + 1);
      } else {
        PaidUse(b, s, a, s1);
        PaidUse(b, s1, Look(clock(k + 1)), Stalled(s1, clock(k + 1)));
      }
    }
  }

  lemma StepPaid(b: Bucket, s: State, e: Event)
    requires Paid(b, s) && s.bucket.refillPerSec > 0.0 && Enabled(s, e)
    ensures Paid(b, Step(s, e)) && s.uses <= Step(s, e).uses
  {
    match e
    case Schedule(x) =>
    case Microtask(clock, spawn) => LoopPaid(b, s.(pumping := false), clock, spawn, 0);
    case TimerFires(clock, spawn) => LoopPaid(b, s.(timer := None), clock, spawn, 0);
    case Finishes(ok, clock, spawn) => LoopPaid(b, Settle(s, ok), clock, spawn, 0);
  }

  /** In every state of every run the starts are exactly the tokens taken, use by use. */
  lemma {:induction false} RunPaid(states: seq<State>, events: seq<Event>, maxInFlight: nat, bucket: Bucket, j: nat)
    requires Run(states, events) && states[0] == Initial(maxInFlight, bucket) && j < |states|
    ensures Paid(bucket, states[j])
  {
    if j > 0 {
      RunPaid(states, events, maxInFlight, bucket, j - 1);
      StepPaid(bucket, states[j - 1], events[j - 1]);
    }
  }

  lemma {:induction false} SoundAfter(b: Bucket, uses: seq<Use>)
    requires Sound(b) && forall i :: 0 <= i < |uses| && uses[i].Attempt? ==> uses[i].n >= 0.0
    ensures Sound(After(b, uses))
    ensures After(b, uses).capacity == b.capacity && After(b, uses).refillPerSec == b.refillPerSec
    decreases |uses|
  {
    if uses != [] {
      SoundAfterOne(b, uses[0]);
      SoundAfter(AfterOne(b, uses[0]), uses[1..]);
    }
  }

  /**
   * Over every run and any stretch of the bucket's uses, inside one event or across many: if its
   * clock readings lie in an interval, the jobs it starts are at most the burst capacity, the rate
   * times the interval's seconds, and 1e-9.
   */
  lemma StartRateBound(states: seq<State>, events: seq<Event>, maxInFlight: nat, bucket: Bucket, j: nat,
                       m: nat, n: nat, from: real, until: real)
    requires Run(states, events) && states[0] == Initial(maxInFlight, bucket) && Sound(bucket)
    requires j < |states| && m <= n <= |states[j].uses| && from <= until
    requires forall u :: m <= u < n ==> from <= states[j].uses[u].t <= until
    ensures (StartsBy(states[j].starts, n) - StartsBy(states[j].starts, m)) as real
              <= bucket.capacity + (until - from) / 1000.0 * bucket.refillPerSec + 0.000000001
  {
    StartsBound(states, events, maxInFlight, bucket, j, m, n, from, until);
    GainIs(bucket, from, until, (until - from) / 1000.0 * bucket.refillPerSec);
  }

  lemma StartsBound(states: seq<State>, events: seq<Event>, maxInFlight: nat, bucket: Bucket, j: nat,
                    m: nat, n: nat, from: real, until: real)
    requires Run(states, events) && states[0] == Initial(maxInFlight, bucket) && Sound(bucket)
    requires j < |states| && m <= n <= |states[j].uses| && from <= until
    requires forall u :: m <= u < n ==> from <= states[j].uses[u].t <= until
    ensures (StartsBy(states[j].starts, n) - StartsBy(states[j].starts, m)) as real
              <= bucket.capacity + Refilled(bucket, from, until) + EPSILON
  {
    var s := states[j];
    RunPaid(states, events, maxInFlight, bucket, j);
    var before, slice := s.uses[..m], s.uses[m..n];
    assert s.uses[..n] == before + slice;
    TakenConcat(bucket, before, slice);
    SoundAfter(bucket, before);
    TakenBound(After(bucket, before), slice, from, until);
    SameRate(After(bucket, before), bucket, from, until);
  }

  lemma PerMinute(ms: real, rpm: real)
    ensures ms / 1000.0 * (rpm / 60.0) == ms * rpm / 60000.0
  {
  }

  /** For a scheduler built for `rpm` requests a minute the refill is `rpm` for every 60000 milliseconds. */
  lemma RequestsPerMinute(states: seq<State>, events: seq<Event>, rpm: real, capacity: real, now: real, maxInFlight: nat,
                          j: nat, m: nat, n: nat, from: real, until: real)
    requires rpm > 0.0 && capacity > 0.0 && Run(states, events)
    requires states[0] == Initial(maxInFlight, Bucket(capacity, rpm / 60.0, capacity, now))
    requires j < |states| && m <= n <= |states[j].uses| && from <= until
    requires forall u :: m <= u < n ==> from <= states[j].uses[u].t <= until
    ensures (StartsBy(states[j].starts, n) - StartsBy(states[j].starts, m)) as real
              <= capacity + (until - from) * rpm / 60000.0 + 0.000000001
  {
    var bucket := Bucket(capacity, rpm / 60.0, capacity, now);
    StartsBound(states, events, maxInFlight, bucket, j, m, n, from, until);
    PerMinute(until - from, rpm);
    GainIs(bucket, from, until, (until - from) * rpm / 60000.0);
  }

  lemma {:induction false} UsesGrow(states: seq<State>, events: seq<Event>, maxInFlight: nat, bucket: Bucket, i: nat, j: nat)
    requires Run(states, events) && states[0] == Initial(maxInFlight, bucket) && i <= j < |states|
    ensures states[i].uses <= states[j].uses
    decreases j - i
  {
    if i < j {
      UsesGrow(states, events, maxInFlight, bucket, i, j - 1);
      StepGrows(states, events, maxInFlight, bucket, j - 1);
      PrefixOfPrefix(states[i].uses, states[j - 1].uses, states[j].uses);
    }
  }

  lemma StepGrows(states: seq<State>, events: seq<Event>, maxInFlight: nat, bucket: Bucket, i: nat)
    requires Run(states, events) && states[0] == Initial(maxInFlight, bucket) && i < |events|
    ensures states[i].uses <= states[i + 1].uses
  {
    RunPaid(states, events, maxInFlight, bucket, i);
    StepPaid(bucket, states[i], events[i]);
  }

  lemma PrefixOfPrefix(a: seq<Use>, b: seq<Use>, c: seq<Use>)
    requires a <= b && b <= c
    ensures a <= c
  {
  }

  /** The starts counted up to the uses made by state `i` are the jobs that state has started. */
  lemma StartsByState(states: seq<State>, events: seq<Event>, maxInFlight: nat, bucket: Bucket, i: nat, j: nat)
    requires Run(states, events) && states[0] == Initial(maxInFlight, bucket) && Sound(bucket) && i <= j < |states|
    ensures |states[i].uses| <= |states[j].uses|
    ensures StartsBy(states[j].starts, |states[i].uses|) == states[i].started
  {
    var s, r := states[i], states[j];
    UsesGrow(states, events, maxInFlight, bucket, i, j);
    RunPaid(states, events, maxInFlight, bucket, i);
    RunPaid(states, events, maxInFlight, bucket, j);
    SchedulerInvariant(states, events, maxInFlight, bucket, i);
    assert r.uses[..|s.uses|] == s.uses && s.uses[..|s.uses|] == s.uses;
    StartsByAll(s.starts, |s.uses|);
  }
}
