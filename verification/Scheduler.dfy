/**
 * The RPC request scheduler: jobs wait in a priority queue, start when a token and a slot are
 * free, and are driven by microtasks, one timer and completions.
 *
 * An event runs to completion before the next one. Within an event the clock may show any
 * readings, and a starting job may synchronously submit further jobs.
 */
module Scheduling {
  import opened Common
  import opened PriorityQueues
  import opened TokenBuckets

  type JobId = nat

  /** One call of `schedule`. */
  datatype Submission = Submission(priority: int, job: JobId)

  /** A started job, the queue it was taken from, and the bucket uses so far; the last took its token. */
  datatype Start = Start(entry: Entry<JobId>, waiting: seq<Entry<JobId>>, uses: nat)

  /**
   * The scheduler between two events. The last three fields are history: every entry ever
   * queued, every start, and every use of the bucket.
   */
  datatype State = State(
    maxInFlight: nat, items: seq<Entry<JobId>>, nextSeq: nat, bucket: Bucket,
    inFlight: nat, timer: Option<real>, pumping: bool,
    enqueued: nat, started: nat, completed: nat, failed: nat, byPriority: map<int, nat>,
    submitted: seq<Entry<JobId>>, starts: seq<Start>, uses: seq<Use>)

  function Initial(maxInFlight: nat, bucket: Bucket): State {
    State(maxInFlight, [], 0, bucket, 0, None, false, 0, 0, 0, 0, map[], [], [], [])
  }

  /** Queue a job and ask for a pump. */
  function Submit(s: State, x: Submission): State {
    var e := Entry(x.priority, s.nextSeq, x.job);
    s.(items := Arrive(s.items, e), nextSeq := s.nextSeq + 1, submitted := s.submitted + [e],
       enqueued := s.enqueued + 1, pumping := true)
  }

  function SubmitAll(s: State, xs: seq<Submission>): State
    decreases |xs|
  {
    if xs == [] then s else SubmitAll(Submit(s, xs[0]), xs[1..])
  }

  function CountOf(m: map<int, nat>, p: int): nat {
    if p in m then m[p] else 0
  }

  /** Move the head of the queue into flight; the token is already taken. */
  function StartHead(s: State): State
    requires s.items != []
  {
    var e := s.items[0];
    s.(items := s.items[1..], inFlight := s.inFlight + 1, started := s.started + 1,
       byPriority := s.byPriority[e.priority := CountOf(s.byPriority, e.priority) + 1],
       starts := s.starts + [Start(e, s.items, |s.uses|)])
  }

  function Attempted(s: State, t: real): (State, bool) {
    var (b, ok) := TryTake(s.bucket, t, 1.0);
    (s.(bucket := b, uses := s.uses + [Attempt(t, 1.0)]), ok)
  }

  /** No token: refill once more and make sure a timer is running. */
  function Stalled(s: State, t: real): State
    requires s.bucket.refillPerSec > 0.0
  {
    var ms := MsUntilAvailable(s.bucket, t, 1.0) as real;
    var wait := if ms >= 5.0 then ms else 5.0;
    s.(bucket := Refill(s.bucket, t), uses := s.uses + [Look(t)], timer := if s.timer.None? then Some(wait) else s.timer)
  }

  /** Drain the queue while a slot and a token are free. `clock` and `spawn` are what the event sees. */
  function Loop(s: State, clock: nat -> real, spawn: nat -> seq<Submission>, k: nat): State
    requires s.bucket.refillPerSec > 0.0
    decreases s.maxInFlight - s.inFlight
  {
    if s.items == [] || s.inFlight >= s.maxInFlight then s
    else
      var (s1, ok) := Attempted(s, clock(k));
      if !ok then Stalled(s1, clock(k + 1))
      else
        var s2 := StartHead(s1);
        SubmitAllKeeps(s2, spawn(k));
        Loop(SubmitAll(s2, spawn(k)), clock, spawn, k + 1)
  }

  lemma {:induction false} SubmitAllKeeps(s: State, xs: seq<Submission>)
    ensures var r := SubmitAll(s, xs);
            && r.maxInFlight == s.maxInFlight && r.inFlight == s.inFlight && r.bucket == s.bucket && r.timer == s.timer
            && r.started == s.started && r.completed == s.completed && r.failed == s.failed
            && r.byPriority == s.byPriority && r.starts == s.starts && r.uses == s.uses
            && (xs != [] || s.pumping ==> r.pumping)
    decreases |xs|
  {
    if xs != [] {
      SubmitAllKeeps(Submit(s, xs[0]), xs[1..]);
    }
  }

  // ----- events

  datatype Event =
    | Schedule(request: Submission)
    | Microtask(clock: nat -> real, spawn: nat -> seq<Submission>)
    | TimerFires(clock: nat -> real, spawn: nat -> seq<Submission>)
    | Finishes(ok: bool, clock: nat -> real, spawn: nat -> seq<Submission>)

  ghost predicate Enabled(s: State, e: Event) {
    match e
    case Schedule(_) => true
    case Microtask(_, _) => s.pumping
    case TimerFires(_, _) => s.timer.Some?
    case Finishes(_, _, _) => s.inFlight > 0
  }

  ghost function Step(s: State, e: Event): State
    requires s.bucket.refillPerSec > 0.0 && Enabled(s, e)
  {
    match e
    case Schedule(x) => Submit(s, x)
    case Microtask(clock, spawn) => Loop(s.(pumping := false), clock, spawn, 0)
    case TimerFires(clock, spawn) => Loop(s.(timer := None), clock, spawn, 0)
    case Finishes(ok, clock, spawn) => Loop(Settle(s, ok), clock, spawn, 0)
  }

  function Settle(s: State, ok: bool): State
    requires s.inFlight > 0
  {
    s.(completed := s.completed + (if ok then 1 else 0), failed := s.failed + (if ok then 0 else 1),
       inFlight := s.inFlight - 1)
  }

  /** The burst capacity when none is configured: always enough for one job. */
  function DefaultBurst(rpm: real): (r: real)
    ensures r >= 3.0 && r >= rpm / 30.0 && (r == 3.0 || r < rpm / 30.0 + 1.0) && r.Floor as real == r
  {
    CeilAbove(rpm / 30.0);
    CeilBelow(rpm / 30.0);
    var c := Ceil(rpm / 30.0) as real;
    if c >= 3.0 then c else 3.0
  }

  // ----- the class

  class RequestScheduler {
    const queue: PriorityQueue<JobId>
    const bucket: TokenBucket
    const maxInFlight: nat
    var inFlight: nat
    var timer: Option<real>
    var pumping: bool
    var enqueued: nat
    var started: nat
    var completed: nat
    var failed: nat
    var byPriority: map<int, nat>
    ghost var submitted: seq<Entry<JobId>>
    ghost var starts: seq<Start>
    ghost var uses: seq<Use>

    ghost predicate Valid()
      reads this, queue, bucket
    {
      queue.Valid() && Sound(bucket.Model())
    }

    ghost function Model(): State
      reads this, queue, bucket
    {
      State(maxInFlight, queue.items, queue.nextSeq, bucket.Model(), inFlight, timer, pumping,
            enqueued, started, completed, failed, byPriority, submitted, starts, uses)
    }

    constructor (rpm: real, burst: Option<real>, maxInFlight: nat, now: real)
      requires rpm > 0.0 && (burst.Some? ==> burst.value > 0.0)
      ensures Valid() && fresh(queue) && fresh(bucket)
      ensures var capacity := if burst.Some? then burst.value else DefaultBurst(rpm);
              Model() == Initial(maxInFlight, Bucket(capacity, rpm / 60.0, capacity, now))
    {
      var capacity := if burst.Some? then burst.value else DefaultBurst(rpm);
      queue := new PriorityQueue<JobId>();
      bucket := new TokenBucket(capacity, rpm / 60.0, now);
      this.maxInFlight := maxInFlight;
      inFlight, timer, pumping := 0, None, false;
      enqueued, started, completed, failed, byPriority := 0, 0, 0, 0, map[];
      submitted, starts, uses := [], [], [];
    }

    method Enqueue(x: Submission)
      requires Valid()
      modifies this, queue
      ensures Valid() && Model() == Submit(old(Model()), x)
    {
      submitted := submitted + [Entry(x.priority, queue.nextSeq, x.job)];
      queue.Push(x.priority, x.job);
      enqueued := enqueued + 1;
      Pump();
    }

    method Pump()
      modifies this
      ensures Model() == old(Model()).(pumping := true)
    {
      if pumping {
        return;
      }
      pumping := true;
    }

    method EnqueueAll(xs: seq<Submission>)
      requires Valid()
      modifies this, queue
      ensures Valid() && Model() == SubmitAll(old(Model()), xs)
      decreases |xs|
    {
      if xs != [] {
        Enqueue(xs[0]);
        EnqueueAll(xs[1..]);
      }
    }

    method OnMicrotask(clock: nat -> real, spawn: nat -> seq<Submission>)
      requires Valid() && pumping
      modifies this, queue, bucket
      ensures Valid() && Model() == Step(old(Model()), Microtask(clock, spawn))
    {
      pumping := false;
      RunLoop(clock, spawn);
    }

    method OnTimer(clock: nat -> real, spawn: nat -> seq<Submission>)
      requires Valid() && timer.Some?
      modifies this, queue, bucket
      ensures Valid() && Model() == Step(old(Model()), TimerFires(clock, spawn))
    {
      timer := None;
      RunLoop(clock, spawn);
    }

    /** Count the outcome and give the slot back. */
    method Release(ok: bool)
      requires Valid() && inFlight > 0
      modifies this
      ensures Valid() && Model() == Settle(old(Model()), ok)
    {
      if ok {
        completed := completed + 1;
      } else {
        failed := failed + 1;
      }
      inFlight := inFlight - 1;
    }

    method OnSettled(ok: bool, clock: nat -> real, spawn: nat -> seq<Submission>)
      requires Valid() && inFlight > 0
      modifies this, queue, bucket
      ensures Valid() && Model() == Step(old(Model()), Finishes(ok, clock, spawn))
    {
      Release(ok);
      RunLoop(clock, spawn);
    }

    /** Start the head of the queue: the job's own synchronous submissions join behind it. */
    method Launch(xs: seq<Submission>)
      requires Valid() && queue.items != []
      modifies this, queue
      ensures Valid() && Model() == SubmitAll(StartHead(old(Model())), xs)
    {
      starts := starts + [Start(queue.items[0], queue.items, |uses|)];
      var p := queue.items[0].priority;
      var job := queue.Shift();
      inFlight := inFlight + 1;
      started := started + 1;
      byPriority := byPriority[p := CountOf(byPriority, p) + 1];
      EnqueueAll(xs);
    }

    method RunLoop(clock: nat -> real, spawn: nat -> seq<Submission>)
      requires Valid()
      modifies this, queue, bucket
      ensures Valid() && Model() == Loop(old(Model()), clock, spawn, 0)
    {
      var k := 0;
      while |queue.items| > 0 && inFlight < maxInFlight
        invariant Valid()
        invariant Model().bucket.refillPerSec == old(Model().bucket.refillPerSec) && Model().maxInFlight == maxInFlight
        invariant Loop(Model(), clock, spawn, k) == Loop(old(Model()), clock, spawn, 0)
        decreases maxInFlight - inFlight
      {
        ghost var s := Model();
        var ok := bucket.Take(clock(k), 1.0);
        uses := uses + [Attempt(clock(k), 1.0)];
        SoundAfterOne(s.bucket, Attempt(clock(k), 1.0));
        if !ok {
          SoundAfterOne(bucket.Model(), Look(clock(k + 1)));
          var ms := bucket.WaitFor(clock(k + 1), 1.0);
          uses := uses + [Look(clock(k + 1))];
          if timer.None? {
            timer := Some(if ms as real >= 5.0 then ms as real else 5.0);
          }
          return;
        }
        assert Model() == Attempted(s, clock(k)).0;
        SubmitAllKeeps(StartHead(Model()), spawn(k));
        Launch(spawn(k));
        k := k + 1;
      }
    }
  }

  /** Construction fails exactly for a rate or a burst that is not positive. */
  method NewRequestScheduler(rpm: real, burst: Option<real>, maxInFlight: nat,
                             now: real) returns (r: Result<RequestScheduler>)
    ensures r.Ok? <==> rpm > 0.0 && (burst.Some? ==> burst.value > 0.0)
    ensures r.Ok? ==>
      var capacity := if burst.Some? then burst.value else DefaultBurst(rpm);
      && fresh(r.value) && r.value.Valid()
      && r.value.Model() == Initial(maxInFlight, Bucket(capacity, rpm / 60.0, capacity, now))
  {
    if burst.Some? && burst.value <= 0.0 {
      return Err("TokenBucket: capacity must be > 0");
    }
    if rpm <= 0.0 {
      return Err("TokenBucket: refillPerSec must be > 0");
    }
    var s := new RequestScheduler(rpm, burst, maxInFlight, now);
    r := Ok(s);
  }

  // ----- what every event keeps

  function Started(starts: seq<Start>): (r: seq<Entry<JobId>>) {
    seq(|starts|, i requires 0 <= i < |starts| => starts[i].entry)
  }

  function StartsAt(starts: seq<Start>, p: int): nat {
    if starts == [] then 0
    else StartsAt(starts[..|starts| - 1], p) + (if starts[|starts| - 1].entry.priority == p then 1 else 0)
  }

  /** The started job was the earliest arrival of the lowest priority number then waiting. */
  ghost predicate Fair(x: Start) {
    x.waiting != [] && x.entry == x.waiting[0]
    && forall k :: 0 < k < |x.waiting| ==> Before(x.entry, x.waiting[k])
  }

  /** Everything but the wake-up guarantee; holds in the middle of an event too. */
  ghost predicate Consistent(s: State) {
    && Sound(s.bucket)
    && Ordered(s.items) && Numbered(s.items, s.nextSeq)
    && s.inFlight <= s.maxInFlight
    && s.enqueued == |s.items| + s.started
    && s.started == s.inFlight + s.completed + s.failed
    && s.started == |s.starts|
    && (forall p :: CountOf(s.byPriority, p) == StartsAt(s.starts, p))
    && (forall i :: 0 <= i < |s.starts| ==> Fair(s.starts[i]))
    && multiset(s.items) + multiset(Started(s.starts)) == multiset(s.submitted)
  }

  /** A waiting job with a free slot always has a pump or a timer coming. */
  ghost predicate Awake(s: State) {
    s.items != [] && s.inFlight < s.maxInFlight ==> s.pumping || s.timer.Some?
  }

  lemma SubmitConsistent(s: State, x: Submission)
    requires Consistent(s)
    ensures Consistent(Submit(s, x))
  {
    var e := Entry(x.priority, s.nextSeq, x.job);
    ArriveOrdered(s.items, e);
    ArriveAdds(s.items, e);
  }

  lemma {:induction false} SubmitAllConsistent(s: State, xs: seq<Submission>)
    requires Consistent(s)
    ensures Consistent(SubmitAll(s, xs))
    decreases |xs|
  {
    if xs != [] {
      SubmitConsistent(s, xs[0]);
      SubmitAllConsistent(Submit(s, xs[0]), xs[1..]);
    }
  }

  lemma StartConsistent(s: State)
    requires Consistent(s) && s.items != [] && s.inFlight < s.maxInFlight
    ensures Consistent(StartHead(s))
  {
    var r := StartHead(s);
    var e := s.items[0];
    assert r.starts[..|s.starts|] == s.starts;
    forall p ensures CountOf(r.byPriority, p) == StartsAt(r.starts, p) {
      assert CountOf(s.byPriority, p) == StartsAt(s.starts, p);
    }
    assert Started(r.starts) == Started(s.starts) + [e];
    assert s.items == [e] + r.items;
  }

  /** The loop keeps the books and leaves nothing asleep; a stall always has its timer. */
  lemma {:induction false} LoopKeeps(s: State, clock: nat -> real,
                                     spawn: nat -> seq<Submission>, k: nat)
    requires Consistent(s)
    ensures var r := Loop(s, clock, spawn, k);
            Consistent(r) && Awake(r)
    decreases s.maxInFlight - s.inFlight
  {
    if s.items != [] && s.inFlight < s.maxInFlight {
      var (s1, ok) := Attempted(s, clock(k));
      SoundAfterOne(s.bucket, Attempt(clock(k), 1.0));
      if ok {
        StartConsistent(s1);
        SubmitAllConsistent(StartHead(s1), spawn(k));
        SubmitAllKeeps(StartHead(s1), spawn(k));
        LoopKeeps(SubmitAll(StartHead(s1), spawn(k)), clock, spawn, k + 1);
      } else {
        SoundAfterOne(s1.bucket, Look(clock(k + 1)));
      }
    }
  }

  lemma StepKeeps(s: State, e: Event)
    requires Consistent(s) && Awake(s) && Enabled(s, e)
    ensures Consistent(Step(s, e)) && Awake(Step(s, e))
  {
    match e
    case Schedule(x) => SubmitConsistent(s, x);
    case Microtask(clock, spawn) => LoopKeeps(s.(pumping := false), clock, spawn, 0);
    case TimerFires(clock, spawn) => LoopKeeps(s.(timer := None), clock, spawn, 0);
    case Finishes(ok, clock, spawn) => LoopKeeps(Settle(s, ok), clock, spawn, 0);
  }

  // ----- every run

  /** The states of a run: each event enabled and taken in turn. */
  ghost predicate Run(states: seq<State>, events: seq<Event>) {
    && |states| == |events| + 1
    && (forall i :: 0 <= i < |states| ==> states[i].bucket.refillPerSec > 0.0)
    && (forall i :: 0 <= i < |events| ==> Enabled(states[i], events[i]) && states[i + 1] == Step(states[i], events[i]))
  }

  /**
   * In every reachable state: the in-flight cap holds, the counters add up, no job is lost or
   * started twice, every start was the earliest of the lowest priority number waiting, and a
   * waiting job with a free slot has a wake-up pending.
   */
  lemma {:induction false} SchedulerInvariant(states: seq<State>, events: seq<Event>,
        maxInFlight: nat, bucket: Bucket, i: nat)
    requires Run(states, events) && states[0] == Initial(maxInFlight, bucket) && Sound(bucket)
    requires i < |states|
    ensures Consistent(states[i]) && Awake(states[i])
  {
    if i > 0 {
      SchedulerInvariant(states, events, maxInFlight, bucket, i - 1);
      StepKeeps(states[i - 1], events[i - 1]);
    }
  }

  // ----- a timer that fires on time starts a job

  /** A stall without a timer sets one for the advised wait, but at least five milliseconds. */
  lemma StallDelay(s: State, t: real)
    requires s.bucket.refillPerSec > 0.0 && s.timer.None?
    ensures Stalled(s, t).timer.Some?
    ensures var w, ms := Stalled(s, t).timer.value, MsUntilAvailable(s.bucket, t, 1.0) as real;
            w >= 5.0 && w >= ms && (w == 5.0 || w == ms)
  {
  }

  /** After a stall, a timer firing once its delay has passed starts at least one job. */
  lemma TimerStartsJob(s: State, t: real, clock: nat -> real, spawn: nat -> seq<Submission>)
    requires Consistent(s) && s.items != [] && s.inFlight < s.maxInFlight && s.timer.None?
    requires s.bucket.capacity >= 1.0
    requires var r := Stalled(s, t); clock(0) >= r.bucket.last + r.timer.value
    ensures Step(Stalled(s, t), TimerFires(clock, spawn)).started > s.started
  {
    var r := Stalled(s, t);
    WaitSufficesIff(s.bucket, t, 1.0, clock(0));
    var q := r.(timer := None);
    var (q1, ok) := Attempted(q, clock(0));
    assert ok;
    var q2 := StartHead(q1);
    SubmitAllKeeps(q2, spawn(0));
    LoopOnlyAdds(SubmitAll(q2, spawn(0)), clock, spawn, 1);
  }

  lemma {:induction false} LoopOnlyAdds(s: State, clock: nat -> real,
                                        spawn: nat -> seq<Submission>, k: nat)
    requires s.bucket.refillPerSec > 0.0
    ensures Loop(s, clock, spawn, k).started >= s.started
    decreases s.maxInFlight - s.inFlight
  {
    if s.items != [] && s.inFlight < s.maxInFlight {
      var (s1, ok) := Attempted(s, clock(k));
      if ok {
        SubmitAllKeeps(StartHead(s1), spawn(k));
        LoopOnlyAdds(SubmitAll(StartHead(s1), spawn(k)), clock, spawn, k + 1);
      }
    }
  }
}
