/**
 * Appending to the lifecycle log. Several worker processes may write at once; each remembers the
 * head it last saw, and the store accepts a row only onto its newest row.
 */
module LifecycleWriters {
  import opened Common
  import opened LifecycleChain

  /** A row in the table; the newest row is the one with the greatest `createdAt`. */
  datatype Stored = Stored(row: Row, createdAt: int)

  function Rows(log: seq<Stored>): (r: seq<Row>)
    ensures |r| == |log| && forall i :: 0 <= i < |log| ==> r[i] == log[i].row
  {
    seq(|log|, i requires 0 <= i < |log| => log[i].row)
  }

  function HashOf(r: Row): Digest {
    if r.bodyHash.Some? then r.bodyHash.value else GENESIS
  }

  ghost predicate Newest(log: seq<Stored>, i: int) {
    0 <= i < |log| && forall j :: 0 <= j < |log| ==> log[j].createdAt <= log[i].createdAt
  }

  /** `h` is a head the store may report: the hash of a newest row, or genesis when empty. */
  ghost predicate IsHead(log: seq<Stored>, h: Digest) {
    if log == [] then h == GENESIS else exists i :: Newest(log, i) && h == HashOf(log[i].row)
  }

  /** The row one attempt would store. */
  function RecordFor(hash: BodyHash, iso: int -> string, x: EntryInput, at: int,
                     prev: Digest): Stored {
    Stored(RowOf(BuildEntry(hash, x.(at := Some(iso(at))), prev, iso(at))), at)
  }

  lemma RecordIsSound(hash: BodyHash, iso: int -> string, x: EntryInput, at: int, prev: Digest)
    ensures var r := RecordFor(hash, iso, x, at, prev).row;
            BodyOk(hash, r) && r.prevHash == Some(prev) && r.content == EntryContent(x, iso(at))
  {
  }

  // ----- the store and one writer's code

  datatype PersistResult = Inserted | HeadMoved(head: Digest)

  class LogStore {
    var log: seq<Stored>

    constructor ()
      ensures log == []
    {
      log := [];
    }

    method NewestHash() returns (h: Digest)
      ensures IsHead(log, h)
    {
      if |log| == 0 {
        return GENESIS;
      }
      var best := 0;
      for i := 1 to |log|
        invariant best < i
        invariant forall j :: 0 <= j < i ==> log[j].createdAt <= log[best].createdAt
      {
        if log[i].createdAt > log[best].createdAt {
          best := i;
        }
      }
      assert Newest(log, best);
      h := HashOf(log[best].row);
    }

    /** Compare and append, under the table lock. */
    method Persist(record: Stored) returns (r: PersistResult)
      modifies this
      ensures r.Inserted? ==> record.row.prevHash.Some? && IsHead(old(log), record.row.prevHash.value) && log == old(log) + [record]
      ensures r.HeadMoved? ==> IsHead(old(log), r.head) && Some(r.head) != record.row.prevHash && log == old(log)
    {
      var head := NewestHash();
      if Some(head) != record.row.prevHash {
        return HeadMoved(head);
      }
      log := log + [record];
      r := Inserted;
    }
  }

  class LifecycleLogWriter {
    var prevHash: Digest

    constructor (seed: Digest)
      ensures prevHash == seed
    {
      prevHash := seed;
    }

    /** One attempt with the remembered head; `h` is the head the store reported to it. */
    method AppendOnce(store: LogStore, hash: BodyHash, iso: int -> string, x: EntryInput,
                      at: int)
      returns (r: PersistResult, ghost h: Digest)
      modifies this, store
      ensures IsHead(old(store.log), h) && (r.Inserted? <==> h == old(prevHash)) && (r.HeadMoved? ==> r.head == h)
      ensures var rec := RecordFor(hash, iso, x, at, old(prevHash));
              if r.Inserted? then store.log == old(store.log) + [rec] && prevHash == HashOf(rec.row)
              else store.log == old(store.log) && prevHash == old(prevHash)
    {
      var rec := RecordFor(hash, iso, x, at, prevHash);
      RecordIsSound(hash, iso, x, at, prevHash);
      r := store.Persist(rec);
      h := if r.Inserted? then prevHash else r.head;
      if r.Inserted? {
        prevHash := HashOf(rec.row);
      }
    }

    /**
     * Append, re-chaining once if another writer got there first. `meanwhile` are the rows other
     * writers stored before the second attempt; `h` and `h2` are the heads the store reported.
     */
    method Append(store: LogStore, hash: BodyHash, iso: int -> string, x: EntryInput, at: int,
                  retryAt: int, meanwhile: seq<Stored>)
      returns (r: PersistResult, ghost h: Digest, ghost h2: Digest)
      modifies this, store
      ensures IsHead(old(store.log), h)
      ensures var (log1, w1) := Try(hash, iso, old(store.log), Writer(old(prevHash), Some(Pending(x, at, false))), h, retryAt);
              if w1.pending.None? then r.Inserted? && store.log == log1 && prevHash == w1.head
              else
                && log1 == old(store.log) && IsHead(log1 + meanwhile, h2)
                && var (log2, w2) := Try(hash, iso, log1 + meanwhile, w1, h2, retryAt);
                   w2.pending.None? && store.log == log2 && prevHash == w2.head && (r.Inserted? <==> h2 == w1.head)
    {
      r, h := AppendOnce(store, hash, iso, x, at);
      h2 := h;
      if r.HeadMoved? {
        prevHash := r.head;
        store.log := store.log + meanwhile;
        r, h2 := AppendOnce(store, hash, iso, x, retryAt);
      }
    }
  }

  // ----- any number of writers, interleaved

  /** An append under way: built on the writer's remembered head, not yet stored. */
  datatype Pending = Pending(input: EntryInput, at: int, retried: bool)

  datatype Writer = Writer(head: Digest, pending: Option<Pending>)

  /** One attempt of a writer with a row pending, when the store reports `head`. */
  function Try(hash: BodyHash, iso: int -> string, log: seq<Stored>, wr: Writer, head: Digest,
               retryAt: int): (seq<Stored>, Writer)
    requires wr.pending.Some?
  {
    var p := wr.pending.value;
    if head == wr.head then
      var rec := RecordFor(hash, iso, p.input, p.at, wr.head);
      (log + [rec], Writer(HashOf(rec.row), None))
    else if !p.retried then (log, Writer(head, Some(Pending(p.input, retryAt, true))))
    else (log, wr.(pending := None))
  }

  datatype World = World(log: seq<Stored>, writers: map<nat, Writer>)

  /** `head` is what the store reports to the step; `retryAt` the clock if it must try again. */
  datatype Action =
    | Open(w: nat, head: Digest)
    | Begin(w: nat, input: EntryInput, at: int)
    | Attempt(w: nat, head: Digest, retryAt: int)
    | Abandon(w: nat)

  ghost predicate Allowed(s: World, a: Action) {
    match a
    case Open(_, head) => IsHead(s.log, head)
    case Begin(w, _, _) => w in s.writers && s.writers[w].pending.None?
    case Attempt(w, head, _) => w in s.writers && s.writers[w].pending.Some? && IsHead(s.log, head)
    case Abandon(w) => w in s.writers
  }

  ghost function Act(hash: BodyHash, iso: int -> string, s: World, a: Action): World
    requires Allowed(s, a)
  {
    match a
    case Open(w, head) => s.(writers := s.writers[w := Writer(head, None)])
    case Begin(w, input, at) =>
      s.(writers := s.writers[w := s.writers[w].(pending := Some(Pending(input, at, false)))])
    case Attempt(w, head, retryAt) =>
      var (log, wr) := Try(hash, iso, s.log, s.writers[w], head, retryAt);
      World(log, s.writers[w := wr])
    case Abandon(w) => s.(writers := s.writers[w := s.writers[w].(pending := None)])
  }

  ghost predicate Run(hash: BodyHash, iso: int -> string, worlds: seq<World>,
                      actions: seq<Action>) {
    && |worlds| == |actions| + 1
    && (forall i :: 0 <= i < |actions| ==>
          Allowed(worlds[i], actions[i]) && worlds[i + 1] == Act(hash, iso, worlds[i], actions[i]))
  }

  /** Every stored row is newer than those stored before it. */
  ghost predicate Increasing(log: seq<Stored>) {
    forall i, j :: 0 <= i < j < |log| ==> log[i].createdAt < log[j].createdAt
  }

  lemma HeadOfIncreasing(log: seq<Stored>, h: Digest)
    requires Increasing(log) && IsHead(log, h)
    ensures h == if log == [] then GENESIS else HashOf(log[|log| - 1].row)
  {
    if log != [] {
      var i :| Newest(log, i) && h == HashOf(log[i].row);
      assert log[|log| - 1].createdAt <= log[i].createdAt;
    }
  }

  /** Appending an unaltered row extends a linked log exactly when its parent is the last row. */
  lemma ExtendLinked(hash: BodyHash, log: seq<Stored>, rec: Stored)
    requires LinkedFromGenesis(hash, Rows(log)) && BodyOk(hash, rec.row) && rec.row.prevHash.Some?
    ensures LinkedFromGenesis(hash, Rows(log + [rec])) <==>
      rec.row.prevHash.value == if log == [] then GENESIS else HashOf(log[|log| - 1].row)
  {
    var n := |log|;
    var before, after := Rows(log), Rows(log + [rec]);
    forall i | 0 <= i < n ensures LinksFrom(hash, after, i) {
      assert LinksFrom(hash, before, i);
      assert after[i] == before[i] && (i > 0 ==> after[i - 1] == before[i - 1]);
    }
    assert after[n] == rec.row && (n > 0 ==> after[n - 1] == log[n - 1].row && BodyOk(hash, after[n - 1])) by {
      assert n > 0 ==> LinksFrom(hash, before, n - 1);
    }
    assert LinkedFromGenesis(hash, after) <==> LinksFrom(hash, after, n);
  }

  lemma TryKeepsLinked(hash: BodyHash, iso: int -> string, log: seq<Stored>, wr: Writer,
                       head: Digest, retryAt: int)
    requires wr.pending.Some? && IsHead(log, head) && LinkedFromGenesis(hash, Rows(log)) && Increasing(log)
    ensures LinkedFromGenesis(hash, Rows(Try(hash, iso, log, wr, head, retryAt).0))
  {
    if head == wr.head {
      var p := wr.pending.value;
      RecordIsSound(hash, iso, p.input, p.at, head);
      HeadOfIncreasing(log, head);
      ExtendLinked(hash, log, RecordFor(hash, iso, p.input, p.at, head));
    }
  }

  lemma ActKeepsLinked(hash: BodyHash, iso: int -> string, s: World, a: Action)
    requires Allowed(s, a) && LinkedFromGenesis(hash, Rows(s.log)) && Increasing(s.log)
    ensures LinkedFromGenesis(hash, Rows(Act(hash, iso, s, a).log))
  {
    if a.Attempt? {
      TryKeepsLinked(hash, iso, s.log, s.writers[a.w], a.head, a.retryAt);
    }
  }

  lemma ActOnlyExtends(hash: BodyHash, iso: int -> string, s: World, a: Action)
    requires Allowed(s, a)
    ensures s.log <= Act(hash, iso, s, a).log
  {
  }

  lemma {:induction false} LogsGrow(hash: BodyHash, iso: int -> string, worlds: seq<World>,
                                    actions: seq<Action>, i: nat, j: nat)
    requires Run(hash, iso, worlds, actions) && i <= j < |worlds|
    ensures worlds[i].log <= worlds[j].log
    decreases j - i
  {
    if i < j {
      LogsGrow(hash, iso, worlds, actions, i, j - 1);
      ActOnlyExtends(hash, iso, worlds[j - 1], actions[j - 1]);
    }
  }

  /**
   * However many writers interleave, with whatever stale heads and retries, the stored log is one
   * linked chain from genesis in every state, as long as stored timestamps increase.
   */
  lemma {:induction false} InterleavedAppendsStayLinked(hash: BodyHash, iso: int -> string, worlds: seq<World>,
                                                        actions: seq<Action>, i: nat)
    requires Run(hash, iso, worlds, actions) && worlds[0].log == [] && i < |worlds|
    requires Increasing(worlds[i].log)
    ensures LinkedFromGenesis(hash, Rows(worlds[i].log))
  {
    if i > 0 {
      LogsGrow(hash, iso, worlds, actions, i - 1, i);
      assert Increasing(worlds[i - 1].log) by {
        var shorter, longer := worlds[i - 1].log, worlds[i].log;
        assert forall k :: 0 <= k < |shorter| ==> shorter[k] == longer[k];
      }
      InterleavedAppendsStayLinked(hash, iso, worlds, actions, i - 1);
      ActKeepsLinked(hash, iso, worlds[i - 1], actions[i - 1]);
    }
  }

  // ----- the timestamp assumption is needed, exactly

  ghost predicate DistinctHashes(log: seq<Stored>) {
    forall i, j :: 0 <= i < j < |log| ==> HashOf(log[i].row) != HashOf(log[j].row)
  }

  /** The last row is newer than every other. */
  ghost predicate LastIsNewest(log: seq<Stored>) {
    forall j :: 0 <= j < |log| - 1 ==> log[j].createdAt < log[|log| - 1].createdAt
  }

  /** The log after an append onto the head the store reports. */
  ghost predicate StaysLinked(hash: BodyHash, iso: int -> string, log: seq<Stored>,
                              x: EntryInput, at: int, h: Digest) {
    LinkedFromGenesis(hash, Rows(log + [RecordFor(hash, iso, x, at, h)]))
  }

  /**
   * Whatever head the store may report, an append onto it keeps a linked log linked, exactly when
   * the last stored row alone carries the greatest timestamp. A row stored with an older clock, or
   * two with the same reading, let the next append fork the chain.
   */
  lemma NextAppendLinkedIff(hash: BodyHash, iso: int -> string, log: seq<Stored>, x: EntryInput,
                            at: int)
    requires log != [] && LinkedFromGenesis(hash, Rows(log)) && DistinctHashes(log)
    ensures (forall h :: IsHead(log, h) ==> StaysLinked(hash, iso, log, x, at, h)) <==> LastIsNewest(log)
  {
    var n := |log| - 1;
    forall h | IsHead(log, h) ensures StaysLinked(hash, iso, log, x, at, h) <==> h == HashOf(log[n].row) {
      RecordIsSound(hash, iso, x, at, h);
      ExtendLinked(hash, log, RecordFor(hash, iso, x, at, h));
    }
    if LastIsNewest(log) {
      forall h | IsHead(log, h) ensures h == HashOf(log[n].row) {
        var i :| Newest(log, i) && h == HashOf(log[i].row);
        assert i == n;
      }
    } else {
      var i := NewestBefore(log);
      assert IsHead(log, HashOf(log[i].row)) && HashOf(log[i].row) != HashOf(log[n].row);
    }
  }

  /** If the last row is not strictly newest, some earlier row is a newest one. */
  lemma {:induction false} NewestBefore(log: seq<Stored>) returns (i: nat)
    requires log != [] && !LastIsNewest(log)
    ensures i < |log| - 1 && Newest(log, i)
  {
    var n := |log| - 1;
    i := NewestOf(log[..n]);
    var j :| 0 <= j < n && log[j].createdAt >= log[n].createdAt;
    assert log[..n][j].createdAt <= log[..n][i].createdAt;
    forall k | 0 <= k < |log| ensures log[k].createdAt <= log[i].createdAt {
      if k < n {
        assert log[..n][k].createdAt <= log[..n][i].createdAt;
      }
    }
  }

  lemma {:induction false} NewestOf(log: seq<Stored>) returns (i: nat)
    requires log != []
    ensures Newest(log, i)
  {
    var n := |log| - 1;
    if n == 0 {
      i := 0;
    } else {
      i := NewestOf(log[..n]);
      forall k | 0 <= k < n ensures log[k].createdAt <= log[i].createdAt {
        assert log[..n][k].createdAt <= log[..n][i].createdAt;
      }
      if log[n].createdAt > log[i].createdAt {
        i := n;
      }
    }
  }

  /** A log whose second row was stored with an older clock than its first. */
  function SkewedLog(hash: BodyHash, iso: int -> string, x: EntryInput): seq<Stored> {
    var first := RecordFor(hash, iso, x, 10, GENESIS);
    [first, RecordFor(hash, iso, x, 5, HashOf(first.row))]
  }

  /** With one writer's clock behind, a third append is accepted onto the first row and forks the log. */
  lemma SkewedClockForks(hash: BodyHash, iso: int -> string, x: EntryInput, w: nat)
    requires var log := SkewedLog(hash, iso, x); HashOf(log[0].row) != HashOf(log[1].row)
    ensures var log := SkewedLog(hash, iso, x);
            var s := World(log, map[w := Writer(HashOf(log[0].row), Some(Pending(x, 11, false)))]);
            var a := Attempt(w, HashOf(log[0].row), 12);
            && LinkedFromGenesis(hash, Rows(log))
            && Allowed(s, a)
            && !LinkedFromGenesis(hash, Rows(Act(hash, iso, s, a).log))
  {
    var log := SkewedLog(hash, iso, x);
    var s := World(log, map[w := Writer(HashOf(log[0].row), Some(Pending(x, 11, false)))]);
    var a := Attempt(w, HashOf(log[0].row), 12);
    RecordIsSound(hash, iso, x, 10, GENESIS);
    RecordIsSound(hash, iso, x, 5, HashOf(log[0].row));
    assert LinkedFromGenesis(hash, Rows([]));
    ExtendLinked(hash, [], log[0]);
    assert [] + [log[0]] == [log[0]] && [log[0]] + [log[1]] == log;
    ExtendLinked(hash, [log[0]], log[1]);
    assert Newest(log, 0);
    RecordIsSound(hash, iso, x, 11, HashOf(log[0].row));
    ExtendLinked(hash, log, RecordFor(hash, iso, x, 11, HashOf(log[0].row)));
  }
}
