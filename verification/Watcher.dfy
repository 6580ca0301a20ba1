/**
 * The pool watcher's cursor: read new pools up to a settled head, ingest each, hold the cursor
 * before the earliest failure, and give a wedged window up only after repeated stalls.
 */
module Watcher {
  import opened Common

  datatype Pool = Pool(block: nat, id: nat)

  const STUCK_POLLS_BEFORE_SKIP := 6

  /** What one poll sees: the chain head, which pools it manages to ingest, and which of those are new launches. */
  datatype Poll = Poll(head: nat, headLag: nat, ingests: Pool -> bool, isNew: Pool -> bool)

  datatype PollResult = PollResult(poolsSeen: nat, indexed: nat, failed: nat, cursorAdvanced: bool)

  function SafeHead(p: Poll): nat {
    if p.head > p.headLag then p.head - p.headLag else 0
  }

  /** The pool-creation logs of a block range, in chain order. */
  function Detect(pools: seq<Pool>, from: int, until: int): seq<Pool> {
    if pools == [] then []
    else
      var rest, q := Detect(pools[..|pools| - 1], from, until), pools[|pools| - 1];
      if from <= q.block <= until then rest + [q] else rest
  }

  lemma {:induction false} DetectMembers(pools: seq<Pool>, from: int, until: int)
    ensures forall q :: q in Detect(pools, from, until) <==> q in pools && from <= q.block <= until
  {
    if pools != [] {
      var n := |pools| - 1;
      DetectMembers(pools[..n], from, until);
      assert forall q :: q in pools <==> q in pools[..n] || q == pools[n];
    }
  }

  /** How many detected pools were ingested as new launches. */
  function NewLaunches(p: Poll, detected: seq<Pool>): nat {
    if detected == [] then 0
    else
      var q := detected[|detected| - 1];
      NewLaunches(p, detected[..|detected| - 1]) + (if p.ingests(q) && p.isNew(q) then 1 else 0)
  }

  function Failures(p: Poll, detected: seq<Pool>): nat {
    if detected == [] then 0
    else Failures(p, detected[..|detected| - 1]) + (if p.ingests(detected[|detected| - 1]) then 0 else 1)
  }

  /** The positions of the pools that satisfy `good`. */
  ghost function PlacesOf(good: Pool -> bool, detected: seq<Pool>): set<nat> {
    set i: nat | i < |detected| && good(detected[i])
  }

  lemma PlacesStep(good: Pool -> bool, detected: seq<Pool>)
    requires detected != []
    ensures var n := |detected| - 1;
            |PlacesOf(good, detected)| == |PlacesOf(good, detected[..n])| + (if good(detected[n]) then 1 else 0)
  {
    var n := |detected| - 1;
    assert PlacesOf(good, detected) == PlacesOf(good, detected[..n]) + (if good(detected[n]) then {n} else {});
  }

  /** The counts a poll reports are how many pools were ingested as new launches, and how many failed. */
  lemma {:induction false} TalliesAre(p: Poll, detected: seq<Pool>)
    ensures NewLaunches(p, detected) == |PlacesOf(q => p.ingests(q) && p.isNew(q), detected)|
    ensures Failures(p, detected) == |PlacesOf(q => !p.ingests(q), detected)|
  {
    if detected != [] {
      TalliesAre(p, detected[..|detected| - 1]);
      PlacesStep(q => p.ingests(q) && p.isNew(q), detected);
      PlacesStep(q => !p.ingests(q), detected);
    }
  }

  /** The last block of a poll's range; a span of zero means no limit. */
  function RangeEnd(cursor: int, maxSpan: nat, safeHead: int): int {
    if maxSpan > 0 && cursor + maxSpan < safeHead then cursor + maxSpan else safeHead
  }

  /** A failed pool is given up only at or below the abandon mark. */
  predicate Abandons(abandonThrough: Option<int>, q: Pool) {
    abandonThrough.Some? && q.block <= abandonThrough.value
  }

  predicate HeldFailure(p: Poll, abandonThrough: Option<int>, q: Pool) {
    !p.ingests(q) && !Abandons(abandonThrough, q)
  }

  /** The detected pools that were ingested. */
  ghost function Ingested(p: Poll, detected: seq<Pool>): set<Pool> {
    set q | q in detected && p.ingests(q)
  }

  /** The detected pools that failed at or below the abandon mark. */
  ghost function GivenUp(p: Poll, abandonThrough: Option<int>, detected: seq<Pool>): set<Pool> {
    set q | q in detected && !p.ingests(q) && Abandons(abandonThrough, q)
  }

  /** The least block with a held failure. */
  function EarliestHeld(p: Poll, abandonThrough: Option<int>,
                        detected: seq<Pool>): Option<int> {
    if detected == [] then None
    else
      var q := detected[|detected| - 1];
      var before := EarliestHeld(p, abandonThrough, detected[..|detected| - 1]);
      if HeldFailure(p, abandonThrough, q) && (before.None? || q.block < before.value) then Some(q.block) else before
  }

  /** Just before the earliest held failure, or the end of the range. */
  function NextCursor(p: Poll, abandonThrough: Option<int>, detected: seq<Pool>,
                      until: int): int {
    var e := EarliestHeld(p, abandonThrough, detected);
    if e.Some? then e.value - 1 else until
  }

  /** What one more pool adds to every tally of a batch. */
  lemma IngestStep(p: Poll, abandonThrough: Option<int>, detected: seq<Pool>, i: nat)
    requires i < |detected|
    ensures var s, q := detected[..i], detected[i];
            var t := detected[..i + 1];
            && NewLaunches(p, t) == NewLaunches(p, s) + (if p.ingests(q) && p.isNew(q) then 1 else 0)
            && Failures(p, t) == Failures(p, s) + (if p.ingests(q) then 0 else 1)
            && Ingested(p, t) == Ingested(p, s) + (if p.ingests(q) then {q} else {})
            && GivenUp(p, abandonThrough, t) == GivenUp(p, abandonThrough, s)
                 + (if !p.ingests(q) && Abandons(abandonThrough, q) then {q} else {})
  {
    assert detected[..i + 1] == detected[..i] + [detected[i]];
    assert detected[..i + 1][..i] == detected[..i];
  }

  lemma EarliestStep(p: Poll, abandonThrough: Option<int>, detected: seq<Pool>, i: nat)
    requires i < |detected|
    ensures var q, before := detected[i], EarliestHeld(p, abandonThrough, detected[..i]);
            EarliestHeld(p, abandonThrough, detected[..i + 1]) ==
            if HeldFailure(p, abandonThrough, q) && (before.None? || q.block < before.value) then Some(q.block) else before
  {
    assert detected[..i + 1][..i] == detected[..i];
  }

  lemma {:induction false} HeldIsFailure(p: Poll, abandonThrough: Option<int>,
        detected: seq<Pool>)
    ensures EarliestHeld(p, abandonThrough, detected).Some? ==> Failures(p, detected) > 0
  {
    if detected != [] {
      HeldIsFailure(p, abandonThrough, detected[..|detected| - 1]);
    }
  }

  lemma {:induction false} EarliestIs(p: Poll, abandonThrough: Option<int>, detected: seq<Pool>)
    ensures var e := EarliestHeld(p, abandonThrough, detected);
            && (e.Some? ==> exists q :: q in detected && HeldFailure(p, abandonThrough, q) && q.block == e.value)
            && (forall q :: q in detected && HeldFailure(p, abandonThrough, q) ==> e.Some? && e.value <= q.block)
  {
    if detected != [] {
      var n := |detected| - 1;
      EarliestIs(p, abandonThrough, detected[..n]);
      assert forall q :: q in detected <==> q in detected[..n] || q == detected[n];
    }
  }

  /**
   * The next cursor lies in the range, passes no held failure, and stops short of the end only
   * directly before one.
   */
  lemma CursorStopsAtFailure(p: Poll, abandonThrough: Option<int>, pools: seq<Pool>,
                             cursor: int, until: int)
    requires cursor <= until
    ensures var detected := Detect(pools, cursor + 1, until);
            var next := NextCursor(p, abandonThrough, detected, until);
            && cursor <= next <= until
            && (forall q :: q in detected && HeldFailure(p, abandonThrough, q) ==> next < q.block)
            && (next < until ==> exists q :: q in detected && HeldFailure(p, abandonThrough, q) && q.block == next + 1)
  {
    var detected := Detect(pools, cursor + 1, until);
    EarliestIs(p, abandonThrough, detected);
    DetectMembers(pools, cursor + 1, until);
  }

  /** The pools a poll reads, none if the cursor is not behind the settled head. */
  function PoolsRead(pools: seq<Pool>, maxSpan: nat, cursor: int, p: Poll): seq<Pool> {
    if cursor >= SafeHead(p) then [] else Detect(pools, cursor + 1, RangeEnd(cursor, maxSpan, SafeHead(p)))
  }

  /** Where a poll leaves the cursor. */
  function CursorAfter(pools: seq<Pool>, maxSpan: nat, cursor: int, p: Poll,
                       abandonThrough: Option<int>): int {
    if cursor >= SafeHead(p) then cursor
    else NextCursor(p, abandonThrough, PoolsRead(pools, maxSpan, cursor, p), RangeEnd(cursor, maxSpan, SafeHead(p)))
  }

  /** What a poll reports. */
  function Report(pools: seq<Pool>, maxSpan: nat, cursor: int, p: Poll,
                  abandonThrough: Option<int>): PollResult {
    var detected := PoolsRead(pools, maxSpan, cursor, p);
    PollResult(|detected|, NewLaunches(p, detected), Failures(p, detected),
               CursorAfter(pools, maxSpan, cursor, p, abandonThrough) > cursor)
  }

  /** A poll behind the settled head that does not advance reports a failure. */
  lemma StallIsFailure(pools: seq<Pool>, maxSpan: nat, cursor: int, p: Poll,
                       abandonThrough: Option<int>)
    requires cursor < SafeHead(p)
    ensures var r := Report(pools, maxSpan, cursor, p, abandonThrough); r.cursorAdvanced || r.failed > 0
    ensures CursorAfter(pools, maxSpan, cursor, p, abandonThrough) >= cursor
  {
    HeldIsFailure(p, abandonThrough, PoolsRead(pools, maxSpan, cursor, p));
    CursorStopsAtFailure(p, abandonThrough, pools, cursor, RangeEnd(cursor, maxSpan, SafeHead(p)));
  }

  /** Every pool of the blocks after `origin` and up to `cursor` was seen to. */
  ghost predicate Accounted(pools: seq<Pool>, origin: int, cursor: int, processed: set<Pool>,
                            abandoned: set<Pool>) {
    forall q :: q in pools && origin < q.block <= cursor ==> q in processed || q in abandoned
  }

  /** The pools a poll passes are ingested or given up in it. */
  lemma StillAccounted(p: Poll, abandonThrough: Option<int>, pools: seq<Pool>, origin: int, cursor: int, until: int,
                       processed: set<Pool>, abandoned: set<Pool>)
    requires origin <= cursor <= until && Accounted(pools, origin, cursor, processed, abandoned)
    ensures var detected := Detect(pools, cursor + 1, until);
            var next := NextCursor(p, abandonThrough, detected, until);
            && cursor <= next <= until
            && Accounted(pools, origin, next, processed + Ingested(p, detected), abandoned + GivenUp(p, abandonThrough, detected))
  {
    CursorStopsAtFailure(p, abandonThrough, pools, cursor, until);
    DetectMembers(pools, cursor + 1, until);
    var detected := Detect(pools, cursor + 1, until);
    var next := NextCursor(p, abandonThrough, detected, until);
    forall q | q in pools && origin < q.block <= next
      ensures q in processed + Ingested(p, detected) || q in abandoned + GivenUp(p, abandonThrough, detected)
    {
      if q.block > cursor {
        assert q in detected;
      }
    }
  }

  class PoolWatcher {
    /** The pool-creation events of the chain. */
    const pools: seq<Pool>
    const maxSpan: nat
    var cursor: Option<int>
    var stuckPolls: nat
    ghost var processed: set<Pool>
    ghost var abandoned: set<Pool>
    /** Where the watcher started. */
    ghost var origin: int

    /** Every pool between the start and the cursor was ingested or explicitly given up. */
    ghost predicate Valid()
      reads this
    {
      cursor.Some? ==>
        && origin <= cursor.value
        && Accounted(pools, origin, cursor.value, processed, abandoned)
    }

    constructor (pools: seq<Pool>, maxSpan: nat)
      ensures Valid() && this.pools == pools && this.maxSpan == maxSpan && cursor == None && stuckPolls == 0
    {
      this.pools := pools;
      this.maxSpan := maxSpan;
      cursor, stuckPolls := None, 0;
      processed, abandoned, origin := {}, {}, 0;
    }

    /** One poll. The first one only places the cursor at the settled head. */
    method PollOnce(p: Poll, abandonThrough: Option<int>) returns (r: PollResult)
      requires Valid()
      modifies `cursor, `origin, `processed, `abandoned
      ensures Valid() && cursor.Some?
      ensures old(cursor).None? ==> cursor.value == SafeHead(p) == origin && r == PollResult(0, 0, 0, false)
      ensures old(cursor).Some? ==>
        var c := old(cursor).value;
        && origin == old(origin)
        && cursor.value == CursorAfter(pools, maxSpan, c, p, abandonThrough)
        && r == Report(pools, maxSpan, c, p, abandonThrough)
        && processed == old(processed) + Ingested(p, PoolsRead(pools, maxSpan, c, p))
        && abandoned == old(abandoned) + GivenUp(p, abandonThrough, PoolsRead(pools, maxSpan, c, p))
    {
      var safeHead := SafeHead(p);
      if cursor.None? {
        PlaceCursor(safeHead);
      }
      if cursor.value >= safeHead {
        return PollResult(0, 0, 0, false);
      }
      r := PollRange(p, abandonThrough, RangeEnd(cursor.value, maxSpan, safeHead));
    }

    method PlaceCursor(safeHead: int)
      modifies `cursor, `origin
      ensures Valid() && cursor == Some(safeHead) && origin == safeHead
    {
      cursor, origin := Some(safeHead), safeHead;
    }

    /** Read and ingest the blocks after the cursor up to `until`. */
    method PollRange(p: Poll, abandonThrough: Option<int>, until: int) returns (r: PollResult)
      requires Valid() && cursor.Some? && cursor.value < until
      modifies `cursor, `processed, `abandoned
      ensures Valid() && cursor.Some?
      ensures var detected := Detect(pools, old(cursor).value + 1, until);
              && cursor.value == NextCursor(p, abandonThrough, detected, until)
              && r == PollResult(|detected|, NewLaunches(p, detected), Failures(p, detected), old(cursor).value < cursor.value)
              && processed == old(processed) + Ingested(p, detected)
              && abandoned == old(abandoned) + GivenUp(p, abandonThrough, detected)
    {
      StillAccounted(p, abandonThrough, pools, origin, cursor.value, until, processed, abandoned);
      var detected := Detect(pools, cursor.value + 1, until);
      var earliest, indexed, failed := IngestAll(p, abandonThrough, detected);
      var next := if earliest.Some? then earliest.value - 1 else until;
      r := PollResult(|detected|, indexed, failed, next > cursor.value);
      cursor := Some(next);
      assert Accounted(pools, origin, next, processed, abandoned);
    }

    /** Try every detected pool; one failure never stops the batch. */
    method IngestAll(p: Poll, abandonThrough: Option<int>, detected: seq<Pool>)
      returns (earliest: Option<int>, indexed: nat, failed: nat)
      modifies `processed, `abandoned
      ensures processed == old(processed) + Ingested(p, detected)
      ensures abandoned == old(abandoned) + GivenUp(p, abandonThrough, detected)
      ensures indexed == NewLaunches(p, detected) && failed == Failures(p, detected)
      ensures earliest == EarliestHeld(p, abandonThrough, detected)
    {
      earliest, indexed, failed := None, 0, 0;
      for i := 0 to |detected|
        invariant indexed == NewLaunches(p, detected[..i]) && failed == Failures(p, detected[..i])
        invariant processed == old(processed) + Ingested(p, detected[..i])
        invariant abandoned == old(abandoned) + GivenUp(p, abandonThrough, detected[..i])
        invariant earliest == EarliestHeld(p, abandonThrough, detected[..i])
      {
        IngestStep(p, abandonThrough, detected, i);
        EarliestStep(p, abandonThrough, detected, i);
        var dp := detected[i];
        if p.ingests(dp) {
          if p.isNew(dp) {
            indexed := indexed + 1;
          }
          processed := processed + {dp};
        } else {
          failed := failed + 1;
          if Abandons(abandonThrough, dp) {
            abandoned := abandoned + {dp};
          } else if earliest.None? || dp.block < earliest.value {
            earliest := Some(dp.block);
          }
        }
      }
      assert detected[..|detected|] == detected;
    }

    /** One turn of the poller: after six stalled polls the window ahead may be abandoned. */
    method Turn(p: Poll) returns (r: PollResult)
      requires Valid()
      modifies this
      ensures Valid() && cursor.Some?
      ensures old(cursor).Some? ==>
        && origin == old(origin)
        && Sight(cursor.value, stuckPolls) == AfterTurn(pools, maxSpan, Sight(old(cursor).value, old(stuckPolls)), p)
    {
      var abandonThrough := if stuckPolls >= STUCK_POLLS_BEFORE_SKIP && cursor.Some? then Some(cursor.value + maxSpan) else None;
      r := PollOnce(p, abandonThrough);
      if r.cursorAdvanced {
        stuckPolls := 0;
      } else if r.failed > 0 {
        stuckPolls := stuckPolls + 1;
      }
    }
  }

  // ----- every run of the poller

  /** The part of the watcher that decides progress. */
  datatype Sight = Sight(cursor: int, stuck: nat)

  ghost predicate Behind(s: Sight, p: Poll) {
    s.cursor < SafeHead(p)
  }

  ghost function AbandonMark(s: Sight, maxSpan: nat): Option<int> {
    if s.stuck >= STUCK_POLLS_BEFORE_SKIP then Some(s.cursor + maxSpan) else None
  }

  ghost function AfterTurn(pools: seq<Pool>, maxSpan: nat, s: Sight, p: Poll): Sight {
    var r := Report(pools, maxSpan, s.cursor, p, AbandonMark(s, maxSpan));
    Sight(CursorAfter(pools, maxSpan, s.cursor, p, AbandonMark(s, maxSpan)),
          if r.cursorAdvanced then 0 else if r.failed > 0 then s.stuck + 1 else s.stuck)
  }

  /** A turn with the cursor behind either advances it or counts one more stall; otherwise nothing changes. */
  lemma TurnAdvancesOrStalls(pools: seq<Pool>, maxSpan: nat, s: Sight, p: Poll)
    ensures var t := AfterTurn(pools, maxSpan, s, p);
            && t.cursor >= s.cursor
            && (t.cursor > s.cursor ==> Behind(s, p) && t.stuck == 0)
            && (t.cursor == s.cursor ==> t.stuck == s.stuck + (if Behind(s, p) then 1 else 0))
  {
    if Behind(s, p) {
      StallIsFailure(pools, maxSpan, s.cursor, p, AbandonMark(s, maxSpan));
    }
  }

  /**
   * A turn that moves stays `headLag` blocks behind the head and within its span; short of both it
   * stops only before a pool that failed; and it passes a failing pool only after six stalls and
   * within one span.
   */
  lemma TurnReach(pools: seq<Pool>, maxSpan: nat, s: Sight, p: Poll)
    ensures var t := AfterTurn(pools, maxSpan, s, p);
            && (t.cursor > s.cursor ==> t.cursor <= 0 || t.cursor + p.headLag <= p.head)
            && (maxSpan > 0 ==> t.cursor <= s.cursor + maxSpan)
            && (t.cursor + p.headLag < p.head && (maxSpan == 0 || t.cursor < s.cursor + maxSpan) ==>
                  exists q :: q in pools && q.block == t.cursor + 1 && !p.ingests(q))
            && (forall q :: q in pools && s.cursor < q.block <= t.cursor && !p.ingests(q) ==>
                  s.stuck >= 6 && q.block <= s.cursor + maxSpan)
  {
    if Behind(s, p) {
      var until := RangeEnd(s.cursor, maxSpan, SafeHead(p));
      DetectMembers(pools, s.cursor + 1, until);
      CursorStopsAtFailure(p, AbandonMark(s, maxSpan), pools, s.cursor, until);
    }
  }

  /** A turn, or a poll that threw and changed nothing. */
  datatype Event = Turned(poll: Poll) | Threw

  ghost predicate Run(pools: seq<Pool>, maxSpan: nat, sights: seq<Sight>, events: seq<Event>) {
    && |sights| == |events| + 1
    && (forall i :: 0 <= i < |events| ==> Follows(pools, maxSpan, sights[i], events[i], sights[i + 1]))
  }

  /** With a span of at least one, a stalled watcher that is behind always gets past its window. */
  lemma StuckTurnAdvances(pools: seq<Pool>, maxSpan: nat, s: Sight, p: Poll)
    requires Behind(s, p) && maxSpan >= 1 && s.stuck >= STUCK_POLLS_BEFORE_SKIP
    ensures AfterTurn(pools, maxSpan, s, p).cursor == RangeEnd(s.cursor, maxSpan, SafeHead(p)) > s.cursor
  {
    var until := RangeEnd(s.cursor, maxSpan, SafeHead(p));
    DetectMembers(pools, s.cursor + 1, until);
    CursorStopsAtFailure(p, AbandonMark(s, maxSpan), pools, s.cursor, until);
    assert until <= s.cursor + maxSpan;
  }

  /** The event takes the watcher from one sight to the next. */
  ghost predicate Follows(pools: seq<Pool>, maxSpan: nat, s: Sight, e: Event, t: Sight) {
    match e
    case Turned(p) => t == AfterTurn(pools, maxSpan, s, p)
    case Threw => t == s
  }

  ghost predicate BehindTurn(s: Sight, e: Event) {
    e.Turned? && Behind(s, e.poll)
  }

  /** An event never moves the cursor back; leaving it, it counts a stall if behind, and at most the sixth. */
  lemma OneEvent(pools: seq<Pool>, maxSpan: nat, s: Sight, e: Event, t: Sight)
    requires Follows(pools, maxSpan, s, e, t)
    ensures s.cursor <= t.cursor
    ensures t.cursor == s.cursor ==> t.stuck == s.stuck + (if BehindTurn(s, e) then 1 else 0)
    ensures t.cursor == s.cursor && BehindTurn(s, e) && maxSpan >= 1 ==> s.stuck < STUCK_POLLS_BEFORE_SKIP
  {
    if e.Turned? {
      TurnAdvancesOrStalls(pools, maxSpan, s, e.poll);
      if BehindTurn(s, e) && maxSpan >= 1 && s.stuck >= STUCK_POLLS_BEFORE_SKIP {
        StuckTurnAdvances(pools, maxSpan, s, e.poll);
      }
    }
  }

  lemma {:induction false} CursorNeverBacks(pools: seq<Pool>, maxSpan: nat, sights: seq<Sight>,
        events: seq<Event>, i: nat, j: nat)
    requires Run(pools, maxSpan, sights, events) && i <= j < |sights|
    ensures sights[i].cursor <= sights[j].cursor
    decreases j - i
  {
    if i < j {
      CursorNeverBacks(pools, maxSpan, sights, events, i, j - 1);
      OneEvent(pools, maxSpan, sights[j - 1], events[j - 1], sights[j]);
    }
  }

  /** Turns in `i..j` that did not throw and found the cursor behind the settled head. */
  ghost function BehindTurns(sights: seq<Sight>, events: seq<Event>, i: nat, j: nat): nat
    requires i <= j <= |events| && |sights| == |events| + 1
  {
    if i == j then 0
    else
      BehindTurns(sights, events, i, j - 1)
      + (if BehindTurn(sights[j - 1], events[j - 1]) then 1 else 0)
  }

  /** While the cursor stays put every turn behind the head counts as a stall, and six is the most. */
  lemma {:induction false} StallsCount(pools: seq<Pool>, maxSpan: nat, sights: seq<Sight>,
                                       events: seq<Event>, i: nat, j: nat)
    requires Run(pools, maxSpan, sights, events) && i <= j <= |events| && maxSpan >= 1
    requires sights[j].cursor == sights[i].cursor
    ensures sights[j].stuck == sights[i].stuck + BehindTurns(sights, events, i, j)
    ensures BehindTurns(sights, events, i, j) <= STUCK_POLLS_BEFORE_SKIP
    decreases j - i
  {
    if i < j {
      CursorNeverBacks(pools, maxSpan, sights, events, i, j - 1);
      OneEvent(pools, maxSpan, sights[j - 1], events[j - 1], sights[j]);
      StallsCount(pools, maxSpan, sights, events, i, j - 1);
    }
  }

  /** Seven turns behind the settled head always advance the cursor, whatever fails or throws. */
  lemma NeverSevenStalls(pools: seq<Pool>, maxSpan: nat, sights: seq<Sight>, events: seq<Event>,
                         i: nat, j: nat)
    requires Run(pools, maxSpan, sights, events) && i <= j <= |events| && maxSpan >= 1
    requires BehindTurns(sights, events, i, j) >= 7
    ensures sights[j].cursor > sights[i].cursor
  {
    CursorNeverBacks(pools, maxSpan, sights, events, i, j);
    if sights[j].cursor == sights[i].cursor {
      StallsCount(pools, maxSpan, sights, events, i, j);
      assert false;
    }
  }

  /** The stalls counted so far are turns behind the head since the cursor came where it is. */
  lemma {:induction false} StallsAreTurns(pools: seq<Pool>, maxSpan: nat, sights: seq<Sight>, events: seq<Event>,
                                          j: nat) returns (i: nat)
    requires Run(pools, maxSpan, sights, events) && j <= |events| && sights[0].stuck == 0
    ensures i <= j && sights[i].cursor == sights[j].cursor
    ensures sights[j].stuck == BehindTurns(sights, events, i, j)
  {
    i := j;
    if j > 0 {
      OneEvent(pools, maxSpan, sights[j - 1], events[j - 1], sights[j]);
      if sights[j].cursor == sights[j - 1].cursor {
        i := StallsAreTurns(pools, maxSpan, sights, events, j - 1);
      } else {
        TurnAdvancesOrStalls(pools, maxSpan, sights[j - 1], events[j - 1].poll);
      }
    }
  }

  /** From a fresh start, a failing pool is passed over only after six turns behind the head at one cursor. */
  lemma NoEarlyGiveUp(pools: seq<Pool>, maxSpan: nat, sights: seq<Sight>, events: seq<Event>, j: nat, q: Pool)
    requires Run(pools, maxSpan, sights, events) && j < |events| && sights[0].stuck == 0
    requires q in pools && sights[j].cursor < q.block <= sights[j + 1].cursor
    requires events[j].Turned? && !events[j].poll.ingests(q)
    ensures exists i :: 0 <= i <= j && sights[i].cursor == sights[j].cursor && BehindTurns(sights, events, i, j) >= 6
  {
    assert Follows(pools, maxSpan, sights[j], events[j], sights[j + 1]);
    TurnReach(pools, maxSpan, sights[j], events[j].poll);
    var i := StallsAreTurns(pools, maxSpan, sights, events, j);
    assert BehindTurns(sights, events, i, j) >= 6;
  }

  /**
   * With no span limit the abandon mark never reaches a failing pool: as long as the pool after
   * the cursor cannot be ingested, the cursor stays, however many turns are taken.
   */
  lemma {:induction false} NoSpanStallsForever(pools: seq<Pool>, sights: seq<Sight>,
        events: seq<Event>, q: Pool, i: nat)
    requires Run(pools, 0, sights, events) && i <= |events|
    requires q in pools && q.block == sights[0].cursor + 1
    requires forall k :: 0 <= k < |events| && events[k].Turned? ==> !events[k].poll.ingests(q)
    ensures sights[i].cursor == sights[0].cursor
  {
    if i > 0 {
      NoSpanStallsForever(pools, sights, events, q, i - 1);
      if events[i - 1].Turned? {
        NoSpanTurn(pools, sights[i - 1], events[i - 1].poll, q);
      }
    }
  }

  lemma NoSpanTurn(pools: seq<Pool>, s: Sight, p: Poll, q: Pool)
    requires q in pools && q.block == s.cursor + 1 && !p.ingests(q)
    ensures AfterTurn(pools, 0, s, p).cursor == s.cursor
  {
    if Behind(s, p) {
      HeldAtOnce(pools, s.cursor, SafeHead(p), p, AbandonMark(s, 0), q);
    }
  }

  /** A held failure directly after the cursor keeps the cursor where it is. */
  lemma HeldAtOnce(pools: seq<Pool>, cursor: int, until: int, p: Poll, mark: Option<int>, q: Pool)
    requires cursor < until && q in pools && q.block == cursor + 1 && HeldFailure(p, mark, q)
    ensures NextCursor(p, mark, Detect(pools, cursor + 1, until), until) == cursor
  {
    CursorStopsAtFailure(p, mark, pools, cursor, until);
    DetectMembers(pools, cursor + 1, until);
    assert q in Detect(pools, cursor + 1, until);
  }
}
