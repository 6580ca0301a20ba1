/**
 * The agent's key lifecycle: the reference state machine, the per-tick decision adapted from it,
 * and what a tick does with that decision in manage and in observe mode.
 */
module Metabolism {
  import opened Common

  datatype LifecycleState = NoKey | Active | Draining | Rotating | Revoking | Starved

  datatype LifecycleEvent =
    | KeyClaimed | StatusOk | LowBalance | HygieneDue | Drained | Rotated
    | IdsMismatch | PhantomSpend | Revoked | NoCredits | CreditsReturned

  /** The reference machine. */
  function NextState(current: LifecycleState, event: LifecycleEvent): Option<LifecycleState> {
    if event == PhantomSpend || event == IdsMismatch then (if current == NoKey then None else Some(Revoking))
    else if event == Revoked then (if current == Revoking then Some(NoKey) else None)
    else
      match current
      case NoKey =>
        if event == KeyClaimed then Some(Active) else if event == NoCredits then Some(Starved) else None
      case Active =>
        if event == LowBalance then Some(Draining)
        else if event == Drained || event == HygieneDue then Some(Rotating)
        else if event == NoCredits then Some(Starved)
        else if event == StatusOk then Some(Active)
        else None
      case Draining =>
        if event == Drained || event == HygieneDue then Some(Rotating)
        else if event == NoCredits then Some(Starved)
        else if event == StatusOk then Some(Active)
        else None
      case Rotating =>
        if event == Rotated || event == KeyClaimed then Some(Active) else if event == NoCredits then Some(Starved) else None
      case Starved =>
        if event == CreditsReturned then Some(Rotating) else if event == KeyClaimed then Some(Active) else None
      case Revoking => None
  }

  datatype Config = Config(reserveUsd: real, lowWaterUsd: real, hygieneRotateDays: real)

  /** What a tick reads from the provider and the store. */
  datatype Reading = Reading(balanceUsd: real, hasKey: bool, holdSecret: bool, keyAgeDays: Option<real>,
                             phantomSpend: bool, idsMismatch: bool, phantomBilling: bool)

  datatype Decision =
    | Steady(state: LifecycleState)
    | Transition(from: LifecycleState, to: LifecycleState, event: LifecycleEvent, mint: bool)
    | Rotate(from: LifecycleState)
    | Revoke(from: LifecycleState)

  function Decide(s: LifecycleState, halted: bool, r: Reading, cfg: Config): Decision {
    var spendable := r.balanceUsd - cfg.reserveUsd;
    if r.phantomSpend && s != NoKey && s != Revoking then Revoke(s)
    else
      match s
      case Revoking => Transition(s, NoKey, Revoked, false)
      case NoKey =>
        if halted then Steady(NoKey)
        else if spendable <= 0.0 then Transition(s, Starved, NoCredits, false)
        else Transition(s, Active, KeyClaimed, true)
      case Rotating => Transition(s, Active, KeyClaimed, true)
      case Starved =>
        if spendable > 0.0 then Transition(s, Active, KeyClaimed, !(r.hasKey && r.holdSecret)) else Steady(Starved)
      case _ =>
        if !r.hasKey then Transition(s, NoKey, Revoked, false)
        else if !r.holdSecret then Revoke(s)
        else if r.keyAgeDays.Some? && r.keyAgeDays.value >= cfg.hygieneRotateDays then Rotate(s)
        else if spendable <= 0.0 then Transition(s, Starved, NoCredits, false)
        else if r.balanceUsd < cfg.lowWaterUsd then
          (if s == Active then Transition(s, Draining, LowBalance, false) else Steady(Draining))
        else if s == Draining then Transition(s, Active, StatusOk, false)
        else Steady(Active)
  }

  /** Observe mode turns every key action into a snapshot, or into adopting the operator's key. */
  function RestrictToObserve(d: Decision, s: LifecycleState, r: Reading): Decision {
    match d
    case Steady(_) => d
    case Transition(from, to, event, mint) =>
      if !mint then d
      else if r.hasKey && r.holdSecret then Transition(from, to, event, false)
      else Steady(s)
    case _ => Steady(s)
  }

  // ----- what a tick does

  /** A row of the lifecycle log; `event` is what the reference machine is asked about. */
  datatype LogRow = LogRow(isSnapshot: bool, prev: LifecycleState, next: LifecycleState, event: Option<LifecycleEvent>,
                           idsMismatch: bool, phantomBilling: bool)

  datatype Act = Append(row: LogRow) | MintKey | RevokeKey | SetState(state: LifecycleState) | SetHalted

  function Snapshot(s: LifecycleState, mismatch: bool, r: Reading): Act {
    Append(LogRow(true, s, s, None, mismatch, r.phantomBilling))
  }

  function Logged(from: LifecycleState, event: LifecycleEvent, to: LifecycleState,
                  mismatch: bool, r: Reading): Act {
    Append(LogRow(false, from, to, Some(event), mismatch, r.phantomBilling))
  }

  /** The actions of one tick, in order; an error may stop it after any of them. */
  function Acts(d: Decision, s: LifecycleState, r: Reading): seq<Act> {
    match d
    case Steady(_) => [Snapshot(s, r.idsMismatch, r)]
    case Transition(from, to, event, mint) =>
      (if mint then [MintKey] else [])
      + [Logged(from, event, to, r.idsMismatch, r), SetState(to), Snapshot(to, r.idsMismatch, r)]
    case Rotate(from) =>
      [Logged(from, HygieneDue, Rotating, r.idsMismatch, r), MintKey,
       Logged(Rotating, KeyClaimed, Active, r.idsMismatch, r), SetState(Active), Snapshot(Active, r.idsMismatch, r)]
    case Revoke(from) =>
      [Logged(from, if r.phantomSpend then PhantomSpend else IdsMismatch, Revoking, r.phantomSpend, r), RevokeKey,
       Logged(Revoking, Revoked, NoKey, r.phantomSpend, r), SetState(NoKey), SetHalted, Snapshot(NoKey, true, r)]
  }

  /** The process between ticks, with the log it has written and its key actions. */
  datatype Process = Process(state: LifecycleState, halted: bool, log: seq<LogRow>, mints: nat, revokes: nat)

  function Perform(p: Process, a: Act): Process {
    match a
    case Append(row) => p.(log := p.log + [row])
    case MintKey => p.(mints := p.mints + 1)
    case RevokeKey => p.(revokes := p.revokes + 1)
    case SetState(s) => p.(state := s)
    case SetHalted => p.(halted := true)
  }

  function PerformAll(p: Process, acts: seq<Act>): Process
    decreases |acts|
  {
    if acts == [] then p else PerformAll(Perform(p, acts[0]), acts[1..])
  }

  function TickDecision(observe: bool, p: Process, r: Reading, cfg: Config): Decision {
    var d := Decide(p.state, p.halted, r, cfg);
    if observe then RestrictToObserve(d, p.state, r) else d
  }

  /** A tick that completes its first `done` actions. */
  function Tick(observe: bool, p: Process, r: Reading, cfg: Config, done: nat): Process {
    var acts := Acts(TickDecision(observe, p, r, cfg), p.state, r);
    PerformAll(p, acts[..Min(done, |acts|)])
  }

  /** The decision agrees with the body of the loop that acts on it. */
  class LifecycleRunner {
    var state: LifecycleState
    var halted: bool
    var log: seq<LogRow>
    var mints: nat
    var revokes: nat

    ghost function Model(): Process
      reads this
    {
      Process(state, halted, log, mints, revokes)
    }

    constructor (state: LifecycleState, halted: bool)
      ensures Model() == Process(state, halted, [], 0, 0)
    {
      this.state, this.halted, log, mints, revokes := state, halted, [], 0, 0;
    }

    method Do(a: Act)
      modifies this
      ensures Model() == Perform(old(Model()), a)
    {
      match a
      case Append(row) => log := log + [row];
      case MintKey => mints := mints + 1;
      case RevokeKey => revokes := revokes + 1;
      case SetState(s) => state := s;
      case SetHalted => halted := true;
    }

    method DoTransition(from: LifecycleState, to: LifecycleState, event: LifecycleEvent,
                        mint: bool, r: Reading)
      modifies this
      ensures Model() == PerformAll(old(Model()), Acts(Transition(from, to, event, mint), old(state), r))
    {
      ghost var p0, three := Model(), [Logged(from, event, to, r.idsMismatch, r), SetState(to), Snapshot(to, r.idsMismatch, r)];
      if mint {
        Do(MintKey);
      }
      ghost var p := Model();
      Do(Logged(from, event, to, r.idsMismatch, r));
      Do(SetState(to));
      Do(Snapshot(to, r.idsMismatch, r));
      PerformThree(p, three[0], three[1], three[2]);
      PerformFirst(p0, MintKey, three);
      assert [] + three == three;
    }

    method DoRotate(from: LifecycleState, r: Reading)
      modifies this
      ensures Model() == PerformAll(old(Model()), Acts(Rotate(from), old(state), r))
    {
      ghost var p := Model();
      Do(Logged(from, HygieneDue, Rotating, r.idsMismatch, r));
      Do(MintKey);
      Do(Logged(Rotating, KeyClaimed, Active, r.idsMismatch, r));
      Do(SetState(Active));
      Do(Snapshot(Active, r.idsMismatch, r));
      ghost var acts := Acts(Rotate(from), old(state), r);
      PerformThree(PerformTwo(p, acts[0], acts[1], acts[2..]), acts[2], acts[3], acts[4]);
      assert acts == [acts[0], acts[1]] + acts[2..] && acts[2..] == [acts[2], acts[3], acts[4]];
    }

    method DoRevoke(from: LifecycleState, r: Reading)
      modifies this
      ensures Model() == PerformAll(old(Model()), Acts(Revoke(from), old(state), r))
    {
      ghost var p := Model();
      var compromise := r.phantomSpend;
      Do(Logged(from, if compromise then PhantomSpend else IdsMismatch, Revoking, compromise, r));
      Do(RevokeKey);
      Do(Logged(Revoking, Revoked, NoKey, compromise, r));
      Do(SetState(NoKey));
      Do(SetHalted);
      Do(Snapshot(NoKey, true, r));
      ghost var acts := Acts(Revoke(from), old(state), r);
      PerformSix(p, acts);
    }

    /** A tick without errors performs all of its actions. */
    method RunTick(observe: bool, r: Reading, cfg: Config)
      modifies this
      ensures Model() == PerformAll(old(Model()), Acts(TickDecision(observe, old(Model()), r, cfg), old(state), r))
    {
      var decided := Decide(state, halted, r, cfg);
      var decision := if observe then RestrictToObserve(decided, state, r) else decided;
      match decision {
        case Steady(_) =>
          PerformOne(Model(), Snapshot(state, r.idsMismatch, r));
          Do(Snapshot(state, r.idsMismatch, r));
        case Transition(from, to, event, mint) => DoTransition(from, to, event, mint, r);
        case Rotate(from) => DoRotate(from, r);
        case Revoke(from) => DoRevoke(from, r);
      }
    }
  }

  lemma PerformFirst(p: Process, a: Act, rest: seq<Act>)
    ensures PerformAll(p, [a] + rest) == PerformAll(Perform(p, a), rest)
  {
    assert ([a] + rest)[1..] == rest;
  }

  lemma PerformOne(p: Process, a: Act)
    ensures PerformAll(p, [a]) == Perform(p, a)
  {
    PerformFirst(p, a, []);
    assert [a] + [] == [a];
  }

  /** The state after two actions, from which the rest is performed. */
  ghost function PerformTwo(p: Process, a: Act, b: Act, rest: seq<Act>): (q: Process)
    ensures q == Perform(Perform(p, a), b)
    ensures PerformAll(p, [a, b] + rest) == PerformAll(q, rest)
  {
    PerformFirst(p, a, [b] + rest);
    PerformFirst(Perform(p, a), b, rest);
    assert [a, b] + rest == [a] + ([b] + rest);
    Perform(Perform(p, a), b)
  }

  lemma PerformThree(p: Process, a: Act, b: Act, c: Act)
    ensures PerformAll(p, [a, b, c]) == Perform(Perform(Perform(p, a), b), c)
  {
    PerformOne(PerformTwo(p, a, b, [c]), c);
    assert [a, b] + [c] == [a, b, c];
  }

  lemma PerformSix(p: Process, acts: seq<Act>)
    requires |acts| == 6
    ensures PerformAll(p, acts)
         == Perform(Perform(Perform(Perform(Perform(Perform(p, acts[0]), acts[1]), acts[2]), acts[3]), acts[4]), acts[5])
  {
    var q := PerformTwo(p, acts[0], acts[1], acts[2..]);
    var u := PerformTwo(q, acts[2], acts[3], acts[4..]);
    var v := PerformTwo(u, acts[4], acts[5], []);
    assert acts == [acts[0], acts[1]] + acts[2..];
    assert acts[2..] == [acts[2], acts[3]] + acts[4..];
    assert acts[4..] == [acts[4], acts[5]] + [];
  }

  // ----- agreement with the reference machine

  /** The one transition the reference machine does not have: the provider lost the key. */
  predicate LostKey(s: LifecycleState, r: Reading) {
    (s == Active || s == Draining) && !r.phantomSpend && !r.hasKey
  }

  predicate Agrees(row: LogRow) {
    row.isSnapshot || (row.event.Some? && NextState(row.prev, row.event.value) == Some(row.next))
  }

  /** What the decision asks of the reference machine, the machine allows, unless the key was lost. */
  lemma DecisionAgrees(s: LifecycleState, halted: bool, r: Reading, cfg: Config)
    requires !LostKey(s, r)
    ensures match Decide(s, halted, r, cfg)
            case Steady(_) => true
            case Transition(from, to, event, _) => NextState(from, event) == Some(to)
            case Rotate(from) => NextState(from, HygieneDue) == Some(Rotating)
            case Revoke(from) => NextState(from, PhantomSpend) == NextState(from, IdsMismatch) == Some(Revoking)
  {
  }

  lemma RowsAgree(observe: bool, p: Process, r: Reading, cfg: Config)
    requires !LostKey(p.state, r)
    ensures var acts := Acts(TickDecision(observe, p, r, cfg), p.state, r);
            forall k :: 0 <= k < |acts| && acts[k].Append? ==> Agrees(acts[k].row)
  {
    DecisionAgrees(p.state, p.halted, r, cfg);
  }

  /**
   * Every row a tick can log follows the reference machine, except exactly when an active key is
   * missing at the provider.
   */
  lemma RowsAgreeIff(observe: bool, p: Process, r: Reading, cfg: Config)
    ensures var acts := Acts(TickDecision(observe, p, r, cfg), p.state, r);
            (forall k :: 0 <= k < |acts| && acts[k].Append? ==> Agrees(acts[k].row)) <==> !LostKey(p.state, r)
  {
    if LostKey(p.state, r) {
      var acts := Acts(TickDecision(observe, p, r, cfg), p.state, r);
      assert acts[0] == Logged(p.state, Revoked, NoKey, r.idsMismatch, r);
      assert !Agrees(acts[0].row);
    } else {
      RowsAgree(observe, p, r, cfg);
    }
  }

  // ----- what a completed tick does, in plain comparisons

  /** The effect of a completed tick, by the kind of decision. */
  lemma TickEffect(observe: bool, p: Process, r: Reading, cfg: Config)
    ensures var q := Tick(observe, p, r, cfg, 6);
            match TickDecision(observe, p, r, cfg)
            case Steady(_) => q == p.(log := q.log)
            case Transition(_, to, _, mint) => q == p.(log := q.log, state := to, mints := p.mints + (if mint then 1 else 0))
            case Rotate(_) => q == p.(log := q.log, state := Active, mints := p.mints + 1)
            case Revoke(_) => q == p.(log := q.log, state := NoKey, halted := true, revokes := p.revokes + 1)
  {
    var d := TickDecision(observe, p, r, cfg);
    var acts := Acts(d, p.state, r);
    assert acts[..Min(6, |acts|)] == acts;
    match d
    case Steady(_) => PerformOne(p, acts[0]);
    case Transition(from, to, event, mint) => TransitionEffect(p, from, to, event, mint, r);
    case Rotate(_) =>
      PerformThree(PerformTwo(p, acts[0], acts[1], acts[2..]), acts[2], acts[3], acts[4]);
      assert acts == [acts[0], acts[1]] + acts[2..] && acts[2..] == [acts[2], acts[3], acts[4]];
    case Revoke(_) => PerformSix(p, acts);
  }

  lemma TransitionEffect(p: Process, from: LifecycleState, to: LifecycleState, event: LifecycleEvent, mint: bool, r: Reading)
    ensures var q := PerformAll(p, Acts(Transition(from, to, event, mint), p.state, r));
            q == p.(log := q.log, state := to, mints := p.mints + (if mint then 1 else 0))
  {
    var three := [Logged(from, event, to, r.idsMismatch, r), SetState(to), Snapshot(to, r.idsMismatch, r)];
    if mint {
      PerformFirst(p, MintKey, three);
      PerformThree(Perform(p, MintKey), three[0], three[1], three[2]);
    } else {
      PerformThree(p, three[0], three[1], three[2]);
      assert [] + three == three;
    }
  }

  /** The provider charged without a request while the process holds a key: this comes before everything else. */
  predicate Alarm(s: LifecycleState, r: Reading) {
    r.phantomSpend && s != NoKey && s != Revoking
  }

  /** In service, with a key whose secret is in the store. */
  predicate Serving(s: LifecycleState, r: Reading) {
    (s == Active || s == Draining) && r.hasKey && r.holdSecret
  }

  predicate Aged(r: Reading, days: real) {
    r.keyAgeDays.Some? && r.keyAgeDays.value >= days
  }

  /** When a completed tick that manages keys revokes, mints and halts, exactly. */
  lemma KeyActsIff(p: Process, r: Reading, cfg: Config)
    ensures var q, s := Tick(false, p, r, cfg, 6), p.state;
            var revokes := Alarm(s, r) || ((s == Active || s == Draining) && r.hasKey && !r.holdSecret);
            var mints := !Alarm(s, r) && (
                           || (s == NoKey && !p.halted && r.balanceUsd > cfg.reserveUsd)
                           || s == Rotating
                           || (s == Starved && r.balanceUsd > cfg.reserveUsd && !(r.hasKey && r.holdSecret))
                           || (Serving(s, r) && Aged(r, cfg.hygieneRotateDays)));
            && q.revokes == p.revokes + (if revokes then 1 else 0)
            && q.mints == p.mints + (if mints then 1 else 0)
            && (q.halted <==> p.halted || revokes)
  {
    TickEffect(false, p, r, cfg);
  }

  /** In which state a completed tick that manages keys ends, exactly, from every state it may start in. */
  lemma EndsInIff(p: Process, r: Reading, cfg: Config)
    ensures var s, end := p.state, Tick(false, p, r, cfg, 6).state;
            var calm := !Alarm(s, r);
            var funded := r.balanceUsd > cfg.reserveUsd;
            var kept := calm && Serving(s, r) && !Aged(r, cfg.hygieneRotateDays);
            && (end == Starved <==> !funded && ((s == NoKey && !p.halted) || (s == Starved && calm) || kept))
            && (end == Draining <==> kept && funded && r.balanceUsd < cfg.lowWaterUsd)
            && (end == Active <==>
                  || (s == NoKey && !p.halted && funded) || (s == Rotating && calm) || (s == Starved && calm && funded)
                  || (calm && Serving(s, r) && Aged(r, cfg.hygieneRotateDays))
                  || (kept && funded && r.balanceUsd >= cfg.lowWaterUsd))
            && (end == NoKey <==>
                  || Alarm(s, r) || s == Revoking || (s == NoKey && p.halted)
                  || ((s == Active || s == Draining) && !(r.hasKey && r.holdSecret)))
  {
    TickEffect(false, p, r, cfg);
  }

  /** A key is rotated exactly in service, without alarm, from the age set on. */
  lemma RotatesIff(p: Process, r: Reading, cfg: Config)
    ensures TickDecision(false, p, r, cfg).Rotate? <==>
      && !Alarm(p.state, r) && Serving(p.state, r)
      && r.keyAgeDays.Some? && r.keyAgeDays.value >= cfg.hygieneRotateDays
    ensures TickDecision(false, p, r, cfg).Rotate? ==>
      var log, n := Tick(false, p, r, cfg, 6).log, |p.log|;
      n + 1 < |log| && log[n].next == Rotating && log[n + 1].prev == Rotating && log[n + 1].next == Active
  {
    if TickDecision(false, p, r, cfg).Rotate? {
      var acts := Acts(TickDecision(false, p, r, cfg), p.state, r);
      assert acts[..Min(6, |acts|)] == acts;
      PerformThree(PerformTwo(p, acts[0], acts[1], acts[2..]), acts[2], acts[3], acts[4]);
      assert acts == [acts[0], acts[1]] + acts[2..] && acts[2..] == [acts[2], acts[3], acts[4]];
    }
  }

  /**
   * In which state a completed tick that only observes ends: as if managing, but it stays where it
   * is instead of acting on a key, unless the operator's key can be adopted.
   */
  lemma ObserveEndsIn(p: Process, r: Reading, cfg: Config)
    ensures var s, end := p.state, Tick(true, p, r, cfg, 6).state;
            var adopts := r.hasKey && r.holdSecret;
            var funded := r.balanceUsd > cfg.reserveUsd;
            && (Alarm(s, r) ==> end == s)
            && (s == Revoking ==> end == NoKey)
            && (s == NoKey ==> end == if p.halted || (funded && !adopts) then NoKey else if funded then Active else Starved)
            && (!Alarm(s, r) && s == Rotating ==> end == if adopts then Active else Rotating)
            && (!Alarm(s, r) && s == Starved ==> end == if funded && adopts then Active else Starved)
            && (!Alarm(s, r) && (s == Active || s == Draining) ==>
                  if !r.hasKey then end == NoKey
                  else if !r.holdSecret || Aged(r, cfg.hygieneRotateDays) then end == s
                  else end == if !funded then Starved else if r.balanceUsd < cfg.lowWaterUsd then Draining else Active)
    ensures var q := Tick(true, p, r, cfg, 6); q.halted == p.halted
  {
    TickEffect(true, p, r, cfg);
  }

  // ----- every run

  datatype TickInput = TickInput(reading: Reading, done: nat)

  function RunTicks(observe: bool, p: Process, cfg: Config, inputs: seq<TickInput>): Process
    decreases |inputs|
  {
    if inputs == [] then p
    else RunTicks(observe, Tick(observe, p, inputs[0].reading, cfg, inputs[0].done), cfg, inputs[1..])
  }

  lemma {:induction false} NoKeyActs(p: Process, acts: seq<Act>)
    requires forall k :: 0 <= k < |acts| ==> !acts[k].MintKey? && !acts[k].RevokeKey?
    ensures PerformAll(p, acts).mints == p.mints && PerformAll(p, acts).revokes == p.revokes
    decreases |acts|
  {
    if acts != [] {
      NoKeyActs(Perform(p, acts[0]), acts[1..]);
    }
  }

  /** In observe mode no run ever mints, rotates or revokes a key. */
  lemma {:induction false} ObserveNeverTouchesKeys(p: Process, cfg: Config,
        inputs: seq<TickInput>)
    ensures RunTicks(true, p, cfg, inputs).mints == p.mints
    ensures RunTicks(true, p, cfg, inputs).revokes == p.revokes
    decreases |inputs|
  {
    if inputs != [] {
      var x := inputs[0];
      var acts := Acts(TickDecision(true, p, x.reading, cfg), p.state, x.reading);
      NoKeyActs(p, acts[..Min(x.done, |acts|)]);
      ObserveNeverTouchesKeys(Tick(true, p, x.reading, cfg, x.done), cfg, inputs[1..]);
    }
  }

  /** How far a revoke tick got: after `done` of its six actions. */
  lemma RevokeProgress(observe: bool, p: Process, r: Reading, cfg: Config, done: nat)
    requires TickDecision(observe, p, r, cfg).Revoke?
    ensures var q := Tick(observe, p, r, cfg, done);
            && q.revokes == p.revokes + (if done >= 2 then 1 else 0) && q.mints == p.mints
            && q.state == (if done >= 4 then NoKey else p.state)
            && q.halted == (p.halted || done >= 5)
            && (done >= 6 ==> q.log != [] && q.log[|q.log| - 1] == LogRow(true, NoKey, NoKey, None, true, r.phantomBilling))
  {
    var acts := Acts(TickDecision(observe, p, r, cfg), p.state, r);
    var n := Min(done, |acts|);
    PerformPrefix(p, acts, n);
    if n > 0 { PerformPrefix(p, acts, n - 1); }
    if n > 1 { PerformPrefix(p, acts, n - 2); }
    if n > 2 { PerformPrefix(p, acts, n - 3); }
    if n > 3 { PerformPrefix(p, acts, n - 4); }
    if n > 4 { PerformPrefix(p, acts, n - 5); }
  }

  /** The last of the first `n` actions acts on the state after those before it. */
  lemma {:induction false} PerformPrefix(p: Process, acts: seq<Act>, n: nat)
    requires n <= |acts|
    ensures n == 0 ==> PerformAll(p, acts[..n]) == p
    ensures n > 0 ==> PerformAll(p, acts[..n]) == Perform(PerformAll(p, acts[..n - 1]), acts[n - 1])
    decreases n
  {
    if n > 1 {
      PerformPrefix(Perform(p, acts[0]), acts[1..], n - 1);
      assert acts[..n][1..] == acts[1..][..n - 1] && acts[..n - 1][1..] == acts[1..][..n - 2];
    }
  }

  /** A revoke halts an unhalted process exactly when its tick gets as far as setting the flag. */
  lemma RevokeHaltsIff(observe: bool, p: Process, r: Reading, cfg: Config, done: nat)
    requires TickDecision(observe, p, r, cfg).Revoke? && !p.halted
    ensures Tick(observe, p, r, cfg, done).halted <==> done >= 5
    ensures done >= 5 ==> Tick(observe, p, r, cfg, done).state == NoKey
    ensures Tick(observe, p, r, cfg, done).revokes > p.revokes <==> done >= 2
  {
    RevokeProgress(observe, p, r, cfg, done);
  }

  /** A revoke that completes leaves the process halted without a key. */
  lemma CompletedRevokeHalts(observe: bool, p: Process, r: Reading, cfg: Config)
    requires TickDecision(observe, p, r, cfg).Revoke?
    ensures var q := Tick(observe, p, r, cfg, 6);
            q.state == NoKey && q.halted && q.revokes == p.revokes + 1 && q.mints == p.mints
            && q.log != [] && q.log[|q.log| - 1] == LogRow(true, NoKey, NoKey, None, true, r.phantomBilling)
  {
    RevokeProgress(observe, p, r, cfg, 6);
  }

  /**
   * Cut short between revoking and halting, the process mints again two ticks later: phantom
   * spend revokes the key, the append after it throws, the next reading has no key, and the one
   * after that has funds.
   */
  lemma CutShortRevokeMintsAgain(p: Process, cfg: Config, gone: Reading, funded: Reading,
                                 phantom: Reading, done: nat)
    requires p.state == Active && !p.halted && 2 <= done <= 3
    requires phantom.phantomSpend
    requires !gone.phantomSpend && !gone.hasKey
    requires !funded.phantomSpend && funded.balanceUsd > cfg.reserveUsd
    ensures var q := RunTicks(false, p, cfg, [TickInput(phantom, done), TickInput(gone, 3), TickInput(funded, 4)]);
            q.revokes == p.revokes + 1 && q.mints == p.mints + 1 && q.state == Active && !q.halted
  {
    RevokeProgress(false, p, phantom, cfg, done);
    var inputs := [TickInput(phantom, done), TickInput(gone, 3), TickInput(funded, 4)];
    var q1 := Tick(false, p, phantom, cfg, done);
    LostKeyTick(q1, gone, cfg);
    var q2 := Tick(false, q1, gone, cfg, 3);
    MintTick(q2, funded, cfg);
    assert inputs[1..] == [TickInput(gone, 3), TickInput(funded, 4)];
    assert inputs[1..][1..] == [TickInput(funded, 4)];
    assert inputs[1..][1..][1..] == [];
    var q3 := Tick(false, q2, funded, cfg, 4);
    assert RunTicks(false, q2, cfg, inputs[1..][1..]) == q3;
    assert RunTicks(false, q1, cfg, inputs[1..]) == q3;
  }

  lemma LostKeyTick(p: Process, r: Reading, cfg: Config)
    requires LostKey(p.state, r)
    ensures var q := Tick(false, p, r, cfg, 3);
            q.state == NoKey && q.halted == p.halted && q.mints == p.mints && q.revokes == p.revokes
  {
    var acts := Acts(TickDecision(false, p, r, cfg), p.state, r);
    assert acts == [Logged(p.state, Revoked, NoKey, r.idsMismatch, r), SetState(NoKey), Snapshot(NoKey, r.idsMismatch, r)];
    assert acts[..3] == acts;
    PerformThree(p, acts[0], acts[1], acts[2]);
  }

  lemma MintTick(p: Process, r: Reading, cfg: Config)
    requires p.state == NoKey && !p.halted && r.balanceUsd > cfg.reserveUsd
    ensures var q := Tick(false, p, r, cfg, 4);
            q.state == Active && !q.halted && q.mints == p.mints + 1 && q.revokes == p.revokes
  {
    var rest := [Logged(NoKey, KeyClaimed, Active, r.idsMismatch, r), SetState(Active), Snapshot(Active, r.idsMismatch, r)];
    var acts := Acts(TickDecision(false, p, r, cfg), p.state, r);
    assert acts == [MintKey] + rest;
    assert acts[..4] == acts;
    PerformFirst(p, MintKey, rest);
    PerformThree(Perform(p, MintKey), rest[0], rest[1], rest[2]);
  }

  /** A halted process without a key only takes a snapshot. */
  lemma HaltedTick(observe: bool, p: Process, r: Reading, cfg: Config, done: nat)
    requires p.state == NoKey && p.halted
    ensures Tick(observe, p, r, cfg, done) == if done == 0 then p else Perform(p, Snapshot(NoKey, r.idsMismatch, r))
  {
    var acts := Acts(TickDecision(observe, p, r, cfg), p.state, r);
    assert acts == [Snapshot(NoKey, r.idsMismatch, r)];
    if done == 0 {
      assert acts[..0] == [];
    } else {
      assert acts[..Min(done, |acts|)] == acts;
      PerformOne(p, acts[0]);
    }
  }

  /** Once halted without a key the process stays so and never acts on a key again, whatever it reads. */
  lemma {:induction false} HaltedForever(observe: bool, p: Process, cfg: Config,
        inputs: seq<TickInput>)
    requires p.state == NoKey && p.halted
    ensures var q := RunTicks(observe, p, cfg, inputs);
            q.state == NoKey && q.halted && q.mints == p.mints && q.revokes == p.revokes
    decreases |inputs|
  {
    if inputs != [] {
      var x := inputs[0];
      var q := Tick(observe, p, x.reading, cfg, x.done);
      HaltedTick(observe, p, x.reading, cfg, x.done);
      HaltedForever(observe, q, cfg, inputs[1..]);
    }
  }

  /** Whatever follows, a revoke tick that gets as far as setting the flag is the process's last act on a key. */
  lemma RevokeEndsKeyActs(observe: bool, p: Process, r: Reading, cfg: Config, done: nat, later: seq<TickInput>)
    requires TickDecision(observe, p, r, cfg).Revoke? && done >= 5
    ensures var q := RunTicks(observe, p, cfg, [TickInput(r, done)] + later);
            q.state == NoKey && q.halted && q.mints == p.mints && q.revokes == p.revokes + 1
  {
    RevokeProgress(observe, p, r, cfg, done);
    HaltedForever(observe, Tick(observe, p, r, cfg, done), cfg, later);
    assert ([TickInput(r, done)] + later)[1..] == later;
  }

  // ----- restarts

  /** A restarted process reads its state, and whether it is halted, off the last log row. */
  function Restart(log: seq<LogRow>): Process {
    if log == [] then Process(NoKey, false, log, 0, 0)
    else
      var last := log[|log| - 1];
      Process(last.next, last.next == NoKey && (last.idsMismatch || last.phantomBilling), log, 0, 0)
  }

  /** Right after a completed revoke, of whatever cause, a restart stays halted. */
  lemma RestartAfterRevokeHalted(observe: bool, p: Process, r: Reading, cfg: Config)
    requires TickDecision(observe, p, r, cfg).Revoke?
    ensures var q := Restart(Tick(observe, p, r, cfg, 6).log); q.state == NoKey && q.halted
  {
    CompletedRevokeHalts(observe, p, r, cfg);
  }

  /**
   * One further tick decides: a restart after it stays halted exactly when that tick's own reading
   * still shows a mismatch or phantom billing, and otherwise it mints as soon as funds allow.
   */
  lemma RestartForgetsHaltIff(observe: bool, p: Process, r: Reading, cfg: Config)
    requires p.state == NoKey && p.halted
    ensures var q := Restart(Tick(observe, p, r, cfg, 1).log);
            q.state == NoKey && (q.halted <==> r.idsMismatch || r.phantomBilling)
    ensures !r.idsMismatch && !r.phantomBilling ==>
      forall later: Reading :: later.balanceUsd > cfg.reserveUsd ==>
        Decide(NoKey, Restart(Tick(observe, p, r, cfg, 1).log).halted, later, cfg) == Transition(NoKey, Active, KeyClaimed, true)
  {
    HaltedTick(observe, p, r, cfg, 1);
  }
}
