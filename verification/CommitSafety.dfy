/** What every run of the commit job keeps: no double linking, no re-send of an unreleased report. */
module CommitSafety {
  import opened Common
  import opened Merkle
  import opened CommitProtocol

  /**
   * The outside world of a run. `fate` is the chain's final word on a transaction: success,
   * revert, or never mined. `rootOf` and `checks` are the Merkle root of a batch and the check of
   * a leaf's proof, `places` whether a leaf has an index in a tree of a given size; what is proved
   * here needs nothing else of the tree.
   */
  datatype Outside = Outside(fate: TxId -> Option<bool>, rootOf: seq<PendingReport> -> Hex,
                             checks: (Hex, seq<Hex>, Hex) -> bool, places: (seq<PendingReport>, int, Hex, int) -> bool)

  /** The Merkle tree of the worker, with the chain's verdicts. */
  ghost function OnChain(keccak: PairHash, fate: TxId -> Option<bool>): Outside {
    Outside(fate,
            batch => if Canonical(HashesOf(batch)) == [] then Hex("") else Root(keccak, Canonical(HashesOf(batch))),
            (leaf, proof, root) => Verifies(keccak, leaf, proof, root),
            (batch, leafCount, h, index) => IsPlace(batch, leafCount, h, index))
  }

  /** The lowered hash stands at this index among the batch's distinct hashes, of which there are `leafCount`. */
  predicate IsPlace(batch: seq<PendingReport>, leafCount: int, h: Hex, index: int) {
    var leaves := Canonical(HashesOf(batch));
    |leaves| == leafCount && 0 <= index < |leaves| && leaves[index] == Lower(h)
  }

  /** A tree that has the batch's root and a verifying proof for each of its reports. */
  ghost predicate TreeFor(o: Outside, tree: MerkleTree, batch: seq<PendingReport>) {
    && tree.root == o.rootOf(batch)
    && (forall k :: 0 <= k < |batch| ==>
          && LeafRecords(batch, tree)[k].reportHash == Lower(batch[k].reportHash)
          && o.checks(batch[k].reportHash, LeafRecords(batch, tree)[k].proof, tree.root)
          && o.places(batch, tree.leafCount, batch[k].reportHash, LeafRecords(batch, tree)[k].index))
  }

  lemma {:induction false} IndexOfFinds(leaves: seq<Hex>, x: Hex)
    requires x in leaves
    ensures 0 <= IndexOf(leaves, x) < |leaves| && leaves[IndexOf(leaves, x)] == x
  {
    if leaves[0] != x {
      IndexOfFinds(leaves[1..], x);
    }
  }

  /** Every tree the builder returns is such a tree. */
  lemma BuiltTreeServes(keccak: PairHash, fate: TxId -> Option<bool>, batch: seq<PendingReport>,
                        tree: MerkleTree)
    requires TreeOf(keccak, tree, HashesOf(batch))
    ensures TreeFor(OnChain(keccak, fate), tree, batch)
  {
    forall k | 0 <= k < |batch|
      ensures LeafRecords(batch, tree)[k].reportHash == Lower(batch[k].reportHash)
              && Verifies(keccak, batch[k].reportHash, LeafRecords(batch, tree)[k].proof, tree.root)
              && IsPlace(batch, tree.leafCount, batch[k].reportHash, LeafRecords(batch, tree)[k].index)
    {
      assert HashesOf(batch)[k] in HashesOf(batch);
      EveryLeafVerifies(keccak, tree, HashesOf(batch), batch[k].reportHash);
      assert Lower(batch[k].reportHash) in tree.proofs;
      IndexOfFinds(tree.leaves, Lower(batch[k].reportHash));
    }
  }

  /** Receipts seen by a tick agree with the transaction's fate. */
  ghost predicate Truthful(o: Outside, s: State, i: Input) {
    && (s.unconfirmed.Some? && i.lookup.Some? ==> o.fate(s.unconfirmed.value.tx) == i.lookup)
    && (i.sending.Receipt? ==> o.fate(|s.txs|) == Some(i.sending.success))
  }

  // ----- the invariant, clause by clause

  ghost predicate Unlinked(reports: map<ReportId, Report>, batch: seq<PendingReport>) {
    forall id :: InBatch(batch, id) ==> id in reports && reports[id].commitId.None?
  }

  /** The batch copies the hashes of known reports. */
  ghost predicate Copies(reports: map<ReportId, Report>, batch: seq<PendingReport>) {
    forall k :: 0 <= k < |batch| ==> batch[k].id in reports && reports[batch[k].id].hash == batch[k].reportHash
  }

  /** A released transaction was released for the reason recorded. */
  ghost predicate Honest(o: Outside, txs: seq<Sent>, t: TxId)
    requires t < |txs|
  {
    match txs[t].standing
    case Reverted => o.fate(t) == Some(false)
    case Expired(sentAt, droppedAt) => txs[t].sending == NoReceipt(sentAt) && droppedAt - sentAt >= 1_800_000
    case Overwritten(newer) => txs[t].sending.NoReceipt? && t < newer < |txs| && txs[newer].sending.NoReceipt?
    case _ => true
  }

  /** A recorded transaction succeeded, and its commit row points back at it and at its reports. */
  ghost predicate RecordedOk(o: Outside, s: State, t: TxId)
    requires t < |s.txs|
  {
    s.txs[t].standing.Recorded? ==>
      var c := s.txs[t].standing.commit;
      && c < |s.commits| && s.commits[c].tx == t && o.fate(t) == Some(true)
      && (forall id :: InBatch(s.txs[t].batch, id) ==> id in s.reports && s.reports[id].commitId == Some(c))
  }

  /** A commit row holds its transaction's root, and a verifying proof for each of its reports. */
  ghost predicate CommitOk(o: Outside, txs: seq<Sent>, commits: seq<CommitRow>, c: nat)
    requires c < |commits|
  {
    var row := commits[c];
    && row.tx < |txs| && txs[row.tx].standing == Recorded(c) && row.root == txs[row.tx].root
    && |row.leaves| == |txs[row.tx].batch|
    && (forall k :: 0 <= k < |row.leaves| ==>
          var h := txs[row.tx].batch[k].reportHash;
          && row.leaves[k].reportHash == Lower(h) && o.checks(h, row.leaves[k].proof, row.root)
          && o.places(txs[row.tx].batch, row.leafCount, h, row.leaves[k].index))
  }

  /** A linked report is in the batch of the commit it is linked to. */
  ghost predicate LinkedOk(s: State, id: ReportId)
    requires id in s.reports
  {
    s.reports[id].commitId.Some? ==>
      var c := s.reports[id].commitId.value;
      && c < |s.commits| && s.commits[c].tx < |s.txs| && InBatch(s.txs[s.commits[c].tx].batch, id)
      && s.reports[id].leafHash == Some(Lower(s.reports[id].hash))
  }

  /** Two transactions share a report only if the earlier one released it. */
  ghost predicate Exclusive(txs: seq<Sent>) {
    forall t, u, id :: 0 <= t < u < |txs| && InBatch(txs[t].batch, id) && InBatch(txs[u].batch, id) ==>
      Released(txs[t].standing)
  }

  /** The only unreleased, unrecorded transactions are the held one and, mid-tick, the `open` one. */
  ghost predicate HoldOk(s: State, open: Option<TxId>) {
    && Wellformed(s)
    && (s.unconfirmed.Some? ==>
          var u := s.unconfirmed.value;
          && s.txs[u.tx].standing.InHold? && s.txs[u.tx].batch == u.batch && s.txs[u.tx].sending == NoReceipt(u.sentAt)
          && Unlinked(s.reports, u.batch))
    && (forall t :: 0 <= t < |s.txs| && s.txs[t].standing.InHold? ==>
          (s.unconfirmed.Some? && s.unconfirmed.value.tx == t) || open == Some(t))
  }

  ghost predicate Inv(o: Outside, s: State, open: Option<TxId>) {
    && HoldOk(s, open)
    && RootsOk(o, s.txs) && CopiesOk(s) && HonestOk(o, s.txs)
    && RecordsOk(o, s) && CommitsOk(o, s) && LinksOk(s)
    && Exclusive(s.txs)
  }

  ghost predicate RootsOk(o: Outside, txs: seq<Sent>) {
    forall t :: 0 <= t < |txs| ==> txs[t].batch != [] && txs[t].root == o.rootOf(txs[t].batch)
  }

  ghost predicate CopiesOk(s: State) {
    forall t :: 0 <= t < |s.txs| ==> Copies(s.reports, s.txs[t].batch)
  }

  ghost predicate HonestOk(o: Outside, txs: seq<Sent>) {
    forall t :: 0 <= t < |txs| ==> Honest(o, txs, t)
  }

  ghost predicate RecordsOk(o: Outside, s: State) {
    forall t :: 0 <= t < |s.txs| ==> RecordedOk(o, s, t)
  }

  ghost predicate CommitsOk(o: Outside, s: State) {
    forall c :: 0 <= c < |s.commits| ==> CommitOk(o, s.txs, s.commits, c)
  }

  ghost predicate LinksOk(s: State) {
    forall id :: id in s.reports ==> LinkedOk(s, id)
  }

  // ----- each part of a tick keeps it

  /** `after` differs from `before` only in standings and in rows added at the end. */
  ghost predicate Extends(before: seq<Sent>, after: seq<Sent>) {
    && |before| <= |after|
    && (forall k :: 0 <= k < |before| ==>
          after[k].batch == before[k].batch && after[k].root == before[k].root && after[k].sending == before[k].sending)
  }

  /** Commit rows and links survive while recorded transactions stay recorded. */
  lemma LinksSurvive(o: Outside, s: State, r: State)
    requires CommitsOk(o, s) && LinksOk(s) && Extends(s.txs, r.txs)
    requires r.commits == s.commits && r.reports == s.reports
    requires forall k :: 0 <= k < |s.txs| && s.txs[k].standing.Recorded? ==> r.txs[k] == s.txs[k]
    ensures CommitsOk(o, r) && LinksOk(r)
  {
    forall c | 0 <= c < |r.commits| ensures CommitOk(o, r.txs, r.commits, c) {
      assert CommitOk(o, s.txs, s.commits, c);
    }
    forall id | id in r.reports ensures LinkedOk(r, id) {
      assert LinkedOk(s, id);
    }
  }

  /** Releasing a transaction in hold keeps everything but the hold on it. */
  lemma ReleaseKeeps(o: Outside, s: State, t: TxId, x: Standing)
    requires Inv(o, s, None) && s.unconfirmed.Some? && s.unconfirmed.value.tx == t
    requires Released(x)
    requires match x
             case Reverted => o.fate(t) == Some(false)
             case Expired(a, b) => a == s.unconfirmed.value.sentAt && b - a >= 1_800_000
             case _ => false
    ensures Inv(o, s.(unconfirmed := None, txs := Stand(s.txs, t, x)), None)
  {
    var r := s.(unconfirmed := None, txs := Stand(s.txs, t, x));
    assert forall k :: 0 <= k < |s.txs| && k != t ==> r.txs[k] == s.txs[k];
    assert Extends(s.txs, r.txs);
    LinksSurvive(o, s, r);
    forall k | 0 <= k < |r.txs| ensures Honest(o, r.txs, k) && RecordedOk(o, r, k) {
      assert Honest(o, s.txs, k) && RecordedOk(o, s, k);
    }
  }

  lemma ResolveKeeps(o: Outside, s: State, i: Input)
    requires Inv(o, s, None) && Truthful(o, s, i)
    ensures !Finalizes(s, i) ==> Inv(o, ResolveHold(s, i), None)
    ensures Finalizes(s, i) ==> Inv(o, ResolveHold(s, i), Some(s.unconfirmed.value.tx))
  {
    if s.unconfirmed.Some? {
      var u := s.unconfirmed.value;
      match DecideUnconfirmed(u.sentAt, i.lookup, i.now)
      case WaitMore =>
      case FinalizeBatch =>
        var r := s.(unconfirmed := None);
        forall t | 0 <= t < |r.txs| ensures RecordedOk(o, r, t) {
          assert RecordedOk(o, s, t);
        }
        forall id | id in r.reports ensures LinkedOk(r, id) {
          assert LinkedOk(s, id);
        }
      case DropReverted => ReleaseKeeps(o, s, u.tx, Reverted);
      case DropExpired => ReleaseKeeps(o, s, u.tx, Expired(u.sentAt, i.now));
    }
  }

  lemma LinkEffect(reports: map<ReportId, Report>, batch: seq<PendingReport>, c: nat)
    ensures var r := Link(reports, batch, c);
            && r.Keys == reports.Keys
            && (forall id :: id in reports ==> r[id].hash == reports[id].hash)
            && (forall id :: id in reports ==>
                  && r[id].commitId == (if InBatch(batch, id) then Some(c) else reports[id].commitId)
                  && r[id].leafHash == (if InBatch(batch, id) then Some(Lower(reports[id].hash)) else reports[id].leafHash))
  {
  }

  /** The new commit row, and the ones before it. */
  lemma CommitsAfterRecord(o: Outside, s: State, batch: seq<PendingReport>, tree: MerkleTree,
                           t: TxId)
    requires CommitsOk(o, s) && t < |s.txs|
    requires s.txs[t].standing.InHold? && s.txs[t].batch == batch && s.txs[t].root == tree.root
    requires TreeFor(o, tree, batch)
    ensures CommitsOk(o, RecordBatch(s, batch, tree, t))
  {
    var r, c := RecordBatch(s, batch, tree, t), |s.commits|;
    forall d | 0 <= d < |r.commits| ensures CommitOk(o, r.txs, r.commits, d) {
      if d < c {
        assert CommitOk(o, s.txs, s.commits, d);
        assert r.commits[d] == s.commits[d];
      }
    }
  }

  lemma LinksAfterRecord(o: Outside, s: State, batch: seq<PendingReport>, tree: MerkleTree,
                         t: TxId)
    requires RecordsOk(o, s) && LinksOk(s) && CopiesOk(s) && t < |s.txs|
    requires s.txs[t].standing.InHold? && s.txs[t].batch == batch
    requires Unlinked(s.reports, batch) && o.fate(t) == Some(true)
    ensures var r := RecordBatch(s, batch, tree, t); RecordsOk(o, r) && LinksOk(r) && CopiesOk(r)
  {
    var r, c := RecordBatch(s, batch, tree, t), |s.commits|;
    LinkEffect(s.reports, batch, c);
    assert forall k :: 0 <= k < |s.txs| ==> r.txs[k].batch == s.txs[k].batch;
    assert forall d :: 0 <= d < c ==> r.commits[d] == s.commits[d];
    forall k | 0 <= k < |r.txs| ensures RecordedOk(o, r, k) && Copies(r.reports, r.txs[k].batch) {
      assert RecordedOk(o, s, k) && Copies(s.reports, s.txs[k].batch);
    }
    forall id | id in r.reports ensures LinkedOk(r, id) {
      assert LinkedOk(s, id);
    }
  }

  /** Recording the open transaction links its reports and no others. */
  lemma RecordKeeps(o: Outside, s: State, batch: seq<PendingReport>, tree: MerkleTree, t: TxId)
    requires Inv(o, s, Some(t)) && t < |s.txs|
    requires s.txs[t].standing.InHold? && s.txs[t].batch == batch && s.txs[t].root == tree.root
    requires s.unconfirmed.Some? ==> s.unconfirmed.value.tx != t
    requires Unlinked(s.reports, batch) && TreeFor(o, tree, batch) && o.fate(t) == Some(true)
    ensures Inv(o, RecordBatch(s, batch, tree, t), None)
  {
    CommitsAfterRecord(o, s, batch, tree, t);
    LinksAfterRecord(o, s, batch, tree, t);
    HoldSurvivesRecord(o, s, batch, tree, t);
    RestandKeeps(o, s.txs, t, Recorded(|s.commits|));
  }

  /** Recording a transaction in hold upsets no root, reason or exclusivity. */
  lemma RestandKeeps(o: Outside, txs: seq<Sent>, t: TxId, x: Standing)
    requires RootsOk(o, txs) && HonestOk(o, txs) && Exclusive(txs)
    requires t < |txs| && txs[t].standing.InHold? && x.Recorded?
    ensures var after := Stand(txs, t, x); RootsOk(o, after) && HonestOk(o, after) && Exclusive(after)
  {
    var after := Stand(txs, t, x);
    assert forall k :: 0 <= k < |txs| ==>
      after[k].batch == txs[k].batch && after[k].root == txs[k].root && after[k].sending == txs[k].sending;
    assert forall k :: 0 <= k < |txs| && k != t ==> after[k] == txs[k];
    forall k | 0 <= k < |after| ensures Honest(o, after, k) {
      assert Honest(o, txs, k);
    }
    forall a, b, id | 0 <= a < b < |after| && InBatch(after[a].batch, id) && InBatch(after[b].batch, id)
      ensures Released(after[a].standing)
    {
      assert InBatch(txs[a].batch, id) && InBatch(txs[b].batch, id);
    }
  }

  /** The held batch shares no report with the one being recorded, so it stays unlinked. */
  lemma HoldSurvivesRecord(o: Outside, s: State, batch: seq<PendingReport>, tree: MerkleTree,
                           t: TxId)
    requires Inv(o, s, Some(t)) && t < |s.txs|
    requires s.txs[t].standing.InHold? && s.txs[t].batch == batch
    requires s.unconfirmed.Some? ==> s.unconfirmed.value.tx != t
    ensures HoldOk(RecordBatch(s, batch, tree, t), None)
  {
    LinkEffect(s.reports, batch, |s.commits|);
    if s.unconfirmed.Some? {
      var u := s.unconfirmed.value;
      forall id | InBatch(u.batch, id) ensures !InBatch(batch, id) {
        assert InBatch(s.txs[u.tx].batch, id);
        assert !Released(s.txs[t].standing) && !Released(s.txs[u.tx].standing);
        assert !InBatch(s.txs[t].batch, id);
      }
    }
  }

  /** A batch of eligible reports meets only released transactions. */
  lemma EligibleMeetsReleased(o: Outside, s: State, t: TxId, id: ReportId)
    requires Inv(o, s, None) && t < |s.txs|
    requires Eligible(s, id) && InBatch(s.txs[t].batch, id)
    ensures Released(s.txs[t].standing)
  {
    assert RecordedOk(o, s, t);
  }

  /** A further transaction over eligible reports shares reports with released ones only. */
  lemma AddExclusive(o: Outside, s: State, x: Sent)
    requires Inv(o, s, None)
    requires forall id :: InBatch(x.batch, id) ==> Eligible(s, id)
    ensures Exclusive(s.txs + [x])
  {
    var n, txs := |s.txs|, s.txs + [x];
    forall t, u, id | 0 <= t < u < |txs| && InBatch(txs[t].batch, id) && InBatch(txs[u].batch, id)
      ensures Released(txs[t].standing)
    {
      if u == n {
        EligibleMeetsReleased(o, s, t, id);
      } else {
        assert InBatch(s.txs[t].batch, id) && InBatch(s.txs[u].batch, id);
      }
    }
  }

  /** Adding a transaction over eligible reports keeps the books, with that transaction open. */
  lemma AddKeeps(o: Outside, s: State, x: Sent)
    requires Inv(o, s, None) && x.root == o.rootOf(x.batch) && x.batch != [] && Copies(s.reports, x.batch)
    requires forall id :: InBatch(x.batch, id) ==> Eligible(s, id)
    requires x.standing.InHold? || (x.standing.Reverted? && o.fate(|s.txs|) == Some(false))
    ensures Inv(o, s.(txs := s.txs + [x]), if x.standing.InHold? then Some(|s.txs|) else None)
  {
    var n := |s.txs|;
    var r := s.(txs := s.txs + [x]);
    assert forall k :: 0 <= k < n ==> r.txs[k] == s.txs[k];
    AddExclusive(o, s, x);
    LinksSurvive(o, s, r);
    forall k | 0 <= k < |r.txs| ensures Honest(o, r.txs, k) && RecordedOk(o, r, k) && Copies(r.reports, r.txs[k].batch) {
      if k < n {
        assert Honest(o, s.txs, k) && RecordedOk(o, s, k) && Copies(s.reports, s.txs[k].batch);
      }
    }
  }

  /** The open transaction becomes the held one; what was held before is released. */
  lemma TakeHoldKeeps(o: Outside, s: State, r: State, n: TxId, sentAt: int)
    requires Inv(o, s, Some(n)) && n + 1 == |s.txs| && s.txs[n].standing.InHold? && s.txs[n].sending == NoReceipt(sentAt)
    requires s.unconfirmed.Some? ==> s.unconfirmed.value.tx < n
    requires Unlinked(s.reports, s.txs[n].batch)
    requires r == s.(txs := if s.unconfirmed.Some? then Stand(s.txs, s.unconfirmed.value.tx, Overwritten(n)) else s.txs,
                     unconfirmed := Some(Held(n, s.txs[n].batch, sentAt)))
    ensures Inv(o, r, None)
  {
    assert s.txs[n].batch != [];
    assert forall k :: 0 <= k <= n && !(s.unconfirmed.Some? && k == s.unconfirmed.value.tx) ==> r.txs[k] == s.txs[k];
    assert Extends(s.txs, r.txs);
    LinksSurvive(o, s, r);
    forall k | 0 <= k < |r.txs| ensures Honest(o, r.txs, k) && RecordedOk(o, r, k) {
      assert Honest(o, s.txs, k) && RecordedOk(o, s, k);
    }
    forall t, u, id | 0 <= t < u < |r.txs| && InBatch(r.txs[t].batch, id) && InBatch(r.txs[u].batch, id)
      ensures Released(r.txs[t].standing)
    {
      assert InBatch(s.txs[t].batch, id) && InBatch(s.txs[u].batch, id);
    }
  }

  /** Without a receipt the new batch is held, and whatever was held before is released. */
  lemma HoldKeeps(o: Outside, s: State, batch: seq<PendingReport>, tree: MerkleTree,
                  sentAt: int)
    requires Inv(o, s, None) && batch != []
    requires tree.root == o.rootOf(batch) && batch != [] && Copies(s.reports, batch)
    requires forall id :: InBatch(batch, id) ==> Eligible(s, id)
    ensures Inv(o, SendBatch(s, batch, tree, NoReceipt(sentAt)), None)
  {
    var n := |s.txs|;
    var x := Sent(tree.root, batch, NoReceipt(sentAt), InHold);
    AddKeeps(o, s, x);
    var r := SendBatch(s, batch, tree, NoReceipt(sentAt));
    if s.unconfirmed.Some? {
      var u := s.unconfirmed.value.tx;
      assert Stand(s.txs, u, Overwritten(n)) + [x] == Stand(s.txs + [x], u, Overwritten(n));
    }
    TakeHoldKeeps(o, s.(txs := s.txs + [x]), r, n, sentAt);
  }

  lemma NextBatchEligible(s: State, i: Input)
    requires IsPendingList(s, i.pending)
    ensures forall k :: 0 <= k < |i.pending| ==> i.pending[k] in s.reports
    ensures Copies(s.reports, NextBatch(s, i))
    ensures forall id :: InBatch(NextBatch(s, i), id) ==> Eligible(s, id)
  {
  }

  lemma SendKeeps(o: Outside, s: State, batch: seq<PendingReport>, tree: MerkleTree,
                  sending: Sending)
    requires Inv(o, s, None) && batch != [] && Copies(s.reports, batch)
    requires forall id :: InBatch(batch, id) ==> Eligible(s, id)
    requires TreeFor(o, tree, batch)
    requires sending.Receipt? ==> o.fate(|s.txs|) == Some(sending.success)
    ensures Inv(o, SendBatch(s, batch, tree, sending), None)
  {
    match sending
    case NotSent =>
    case Receipt(success) =>
      var x := Sent(tree.root, batch, sending, if success then InHold else Reverted);
      AddKeeps(o, s, x);
      if success {
        RecordKeeps(o, s.(txs := s.txs + [x]), batch, tree, |s.txs|);
      }
    case NoReceipt(sentAt) => HoldKeeps(o, s, batch, tree, sentAt);
  }

  /** What a tick's inputs and tree must satisfy for the invariant to survive it. */
  ghost predicate TickServed(o: Outside, s: State, i: Input, tree: MerkleTree) {
    && Wellformed(s) && Truthful(o, s, i)
    && (forall k :: 0 <= k < |i.pending| ==> i.pending[k] in s.reports)
    && (!Finalizes(s, i) ==> IsPendingList(ResolveHold(s, i), i.pending))
    && (TickBatch(s, i) != [] ==> TreeFor(o, tree, TickBatch(s, i)))
  }

  lemma TickKeeps(o: Outside, s: State, i: Input, tree: MerkleTree)
    requires Inv(o, s, None) && TickServed(o, s, i, tree)
    ensures Inv(o, Tick(s, i, tree), None)
  {
    ResolveKeeps(o, s, i);
    var r := ResolveHold(s, i);
    if Finalizes(s, i) {
      var u := s.unconfirmed.value;
      assert s.txs[u.tx].root == o.rootOf(u.batch);
      RecordKeeps(o, r, u.batch, tree, u.tx);
    } else if NextBatch(r, i) != [] {
      NextBatchEligible(r, i);
      SendKeeps(o, r, NextBatch(r, i), tree, i.sending);
    }
  }

  // ----- every run

  /** Between ticks new reports arrive; a tick is one run of the job. */
  datatype Event = Arrives(id: ReportId, report: Report) | Ticks(input: Input, tree: MerkleTree)

  /**
   * The environment's side of one tick: receipts tell the truth, the database lists the eligible
   * reports, and the tree is the one the builder returns for the tick's batch.
   */
  ghost predicate TickAllowed(keccak: PairHash, fate: TxId -> Option<bool>, s: State, i: Input,
                              tree: MerkleTree) {
    && Wellformed(s) && Truthful(OnChain(keccak, fate), s, i)
    && (forall k :: 0 <= k < |i.pending| ==> i.pending[k] in s.reports)
    && (!Finalizes(s, i) ==> IsPendingList(ResolveHold(s, i), i.pending))
    && (TickBatch(s, i) != [] ==> TreeOf(keccak, tree, HashesOf(TickBatch(s, i))))
  }

  ghost predicate Allowed(keccak: PairHash, fate: TxId -> Option<bool>, s: State, e: Event) {
    match e
    case Arrives(id, report) => id !in s.reports && report.commitId.None?
    case Ticks(i, tree) => TickAllowed(keccak, fate, s, i, tree)
  }

  ghost function Step(s: State, e: Event): State
    requires e.Ticks? ==> Wellformed(s) && forall k :: 0 <= k < |e.input.pending| ==> e.input.pending[k] in s.reports
  {
    match e
    case Arrives(id, report) => s.(reports := s.reports[id := report])
    case Ticks(i, tree) => Tick(s, i, tree)
  }

  const EMPTY := State(map[], [], None, [])

  ghost predicate Run(keccak: PairHash, fate: TxId -> Option<bool>, states: seq<State>,
                      events: seq<Event>) {
    && |states| == |events| + 1 && states[0] == EMPTY
    && (forall i :: 0 <= i < |events| ==>
          Allowed(keccak, fate, states[i], events[i]) && states[i + 1] == Step(states[i], events[i]))
  }

  /** A tick with a built tree is served, through what the tree builder promises. */
  lemma AllowedIsServed(keccak: PairHash, fate: TxId -> Option<bool>, s: State, i: Input,
                        tree: MerkleTree)
    requires TickAllowed(keccak, fate, s, i, tree)
    ensures TickServed(OnChain(keccak, fate), s, i, tree)
  {
    if TickBatch(s, i) != [] {
      BuiltTreeServes(keccak, fate, TickBatch(s, i), tree);
    }
  }

  lemma ArrivalKeepsBooks(o: Outside, s: State, id: ReportId, report: Report)
    requires RecordsOk(o, s) && LinksOk(s) && CopiesOk(s) && id !in s.reports && report.commitId.None?
    ensures var r := s.(reports := s.reports[id := report]); RecordsOk(o, r) && LinksOk(r) && CopiesOk(r)
  {
    var r := s.(reports := s.reports[id := report]);
    forall t | 0 <= t < |r.txs| ensures RecordedOk(o, r, t) && Copies(r.reports, r.txs[t].batch) {
      assert RecordedOk(o, s, t) && Copies(s.reports, s.txs[t].batch);
    }
    forall x | x in r.reports ensures LinkedOk(r, x) {
      if x != id {
        assert LinkedOk(s, x);
      }
    }
  }

  lemma ArrivalKeeps(o: Outside, s: State, id: ReportId, report: Report)
    requires Inv(o, s, None) && id !in s.reports && report.commitId.None?
    ensures Inv(o, s.(reports := s.reports[id := report]), None)
  {
    var r := s.(reports := s.reports[id := report]);
    ArrivalKeepsBooks(o, s, id, report);
    if s.unconfirmed.Some? {
      assert Unlinked(s.reports, s.unconfirmed.value.batch);
      assert Unlinked(r.reports, s.unconfirmed.value.batch);
    }
    assert CommitsOk(o, r);
  }

  /** In every state of every run the commit invariant holds. */
  lemma {:induction false} CommitInvariant(keccak: PairHash, fate: TxId -> Option<bool>,
        states: seq<State>, events: seq<Event>, n: nat)
    requires Run(keccak, fate, states, events) && n < |states|
    ensures Inv(OnChain(keccak, fate), states[n], None)
  {
    if n > 0 {
      CommitInvariant(keccak, fate, states, events, n - 1);
      StepKeeps(keccak, fate, states[n - 1], events[n - 1]);
    }
  }

  lemma StepKeeps(keccak: PairHash, fate: TxId -> Option<bool>, s: State, e: Event)
    requires Inv(OnChain(keccak, fate), s, None) && Allowed(keccak, fate, s, e)
    ensures Inv(OnChain(keccak, fate), Step(s, e), None)
  {
    match e
    case Arrives(id, report) => ArrivalKeeps(OnChain(keccak, fate), s, id, report);
    case Ticks(i, tree) =>
      AllowedIsServed(keccak, fate, s, i, tree);
      TickKeeps(OnChain(keccak, fate), s, i, tree);
  }

  /** What a link to commit `c` means for report `id`. */
  ghost predicate SoundlyCommitted(keccak: PairHash, fate: TxId -> Option<bool>, s: State,
                                   id: ReportId, c: nat)
    requires id in s.reports
  {
    && c < |s.commits| && s.commits[c].tx < |s.txs|
    && var row, x := s.commits[c], s.txs[s.commits[c].tx];
       && fate(row.tx) == Some(true)
       && InBatch(x.batch, id)
       && Canonical(HashesOf(x.batch)) != [] && row.root == Root(keccak, Canonical(HashesOf(x.batch)))
       && (exists k :: 0 <= k < |row.leaves| && row.leaves[k].reportHash == Lower(s.reports[id].hash)
             && Verifies(keccak, s.reports[id].hash, row.leaves[k].proof, row.root)
             && IsPlace(x.batch, row.leafCount, s.reports[id].hash, row.leaves[k].index))
       && s.reports[id].leafHash == Some(Lower(s.reports[id].hash))
  }

  /**
   * A linked report is linked soundly: its commit row's root is the Merkle root of exactly the
   * batch sent, that transaction succeeded, and the stored proof of the report verifies.
   */
  lemma LinkedReportsAreCommitted(keccak: PairHash, fate: TxId -> Option<bool>,
                                  states: seq<State>, events: seq<Event>, n: nat, id: ReportId)
    requires Run(keccak, fate, states, events) && n < |states|
    requires id in states[n].reports && states[n].reports[id].commitId.Some?
    ensures SoundlyCommitted(keccak, fate, states[n], id, states[n].reports[id].commitId.value)
  {
    var o := OnChain(keccak, fate);
    CommitInvariant(keccak, fate, states, events, n);
    var s := states[n];
    var c := s.reports[id].commitId.value;
    assert LinkedOk(s, id) && CommitOk(o, s.txs, s.commits, c);
    var t := s.commits[c].tx;
    var batch := s.txs[t].batch;
    assert RecordedOk(o, s, t) && s.txs[t].root == o.rootOf(batch) && Copies(s.reports, batch);
    CanonicalLeaves(HashesOf(batch));
    var k :| 0 <= k < |batch| && batch[k].id == id;
    assert s.commits[c].leaves[k].reportHash == Lower(s.reports[id].hash);
    assert o.checks(s.reports[id].hash, s.commits[c].leaves[k].proof, s.commits[c].root);
  }

  /** No two commit rows share a report. */
  lemma OneCommitPerReport(keccak: PairHash, fate: TxId -> Option<bool>, states: seq<State>,
                           events: seq<Event>, n: nat, c: nat, d: nat, id: ReportId)
    requires Run(keccak, fate, states, events) && n < |states|
    requires c < |states[n].commits| && d < |states[n].commits|
    requires states[n].commits[c].tx < |states[n].txs| && states[n].commits[d].tx < |states[n].txs|
    requires InBatch(states[n].txs[states[n].commits[c].tx].batch, id)
    requires InBatch(states[n].txs[states[n].commits[d].tx].batch, id)
    ensures c == d && id in states[n].reports && states[n].reports[id].commitId == Some(c)
  {
    CommitInvariant(keccak, fate, states, events, n);
    CommitOfReport(OnChain(keccak, fate), states[n], c, id);
    CommitOfReport(OnChain(keccak, fate), states[n], d, id);
  }

  lemma CommitOfReport(o: Outside, s: State, c: nat, id: ReportId)
    requires Inv(o, s, None) && c < |s.commits| && s.commits[c].tx < |s.txs| && InBatch(s.txs[s.commits[c].tx].batch, id)
    ensures id in s.reports && s.reports[id].commitId == Some(c)
  {
    assert CommitOk(o, s.txs, s.commits, c) && RecordedOk(o, s, s.commits[c].tx);
  }

  /**
   * A report goes into a second transaction only after every earlier one carrying it was
   * released: it reverted, its receipt stayed away for half an hour, or a newer batch went
   * without a receipt and took its hold.
   */
  lemma ResendOnlyAfterRelease(keccak: PairHash, fate: TxId -> Option<bool>, states: seq<State>,
                               events: seq<Event>, n: nat, t: TxId, id: ReportId)
    requires Run(keccak, fate, states, events) && n < |events| && events[n].Ticks?
    requires t < |states[n].txs| && InBatch(states[n].txs[t].batch, id)
    requires !Finalizes(states[n], events[n].input) && InBatch(TickBatch(states[n], events[n].input), id)
    ensures var r := ResolveHold(states[n], events[n].input);
            t < |r.txs| && Released(r.txs[t].standing) && Honest(OnChain(keccak, fate), r.txs, t)
  {
    CommitInvariant(keccak, fate, states, events, n);
    AllowedIsServed(keccak, fate, states[n], events[n].input, events[n].tree);
    ResentIsReleased(OnChain(keccak, fate), states[n], events[n].input, events[n].tree, t, id);
  }

  lemma ResentIsReleased(o: Outside, s: State, i: Input, tree: MerkleTree, t: TxId,
                         id: ReportId)
    requires Inv(o, s, None) && TickServed(o, s, i, tree) && !Finalizes(s, i)
    requires t < |s.txs| && InBatch(s.txs[t].batch, id) && InBatch(TickBatch(s, i), id)
    ensures var r := ResolveHold(s, i); t < |r.txs| && Released(r.txs[t].standing) && Honest(o, r.txs, t)
  {
    ResolveKeeps(o, s, i);
    var r := ResolveHold(s, i);
    NextBatchEligible(r, i);
    assert r.txs[t].batch == s.txs[t].batch;
    EligibleMeetsReleased(o, r, t, id);
  }

  // ----- what a tick does with a held batch, and when it sends the next

  /** The batch's transaction is recorded as commit `c`, with all its reports linked to it. */
  ghost predicate RecordedAs(s: State, t: TxId, batch: seq<PendingReport>, c: nat) {
    && t < |s.txs| && s.txs[t].standing == Recorded(c) && c < |s.commits| && s.commits[c].tx == t
    && (forall id :: InBatch(batch, id) ==> id in s.reports && s.reports[id].commitId == Some(c))
  }

  /**
   * Over every run, a tick with a held batch records it and links its reports exactly if its
   * receipt shows success, gives it up as reverted exactly if it shows a revert, and as expired
   * exactly if there is none thirty minutes after sending. Otherwise a tick that sends nothing
   * leaves it held.
   */
  lemma HeldBatchFate(keccak: PairHash, fate: TxId -> Option<bool>, states: seq<State>, events: seq<Event>, n: nat)
    requires Run(keccak, fate, states, events) && n < |events| && events[n].Ticks? && states[n].unconfirmed.Some?
    ensures states[n].unconfirmed.value.tx < |states[n + 1].txs|
    ensures var u, i, r := states[n].unconfirmed.value, events[n].input, states[n + 1];
            var standing := r.txs[u.tx].standing;
            && (i.lookup == Some(true) <==> RecordedAs(r, u.tx, u.batch, |states[n].commits|))
            && (i.lookup == Some(true) <==> standing.Recorded?)
            && (i.lookup == Some(false) <==> standing.Reverted?)
            && (i.lookup.None? && i.now - u.sentAt >= 1_800_000 <==> standing.Expired?)
            && (i.lookup.None? && i.now - u.sentAt < 1_800_000 && |r.txs| == |states[n].txs| ==>
                  r.unconfirmed == Some(u) && standing.InHold?)
  {
    CommitInvariant(keccak, fate, states, events, n);
    AllowedIsServed(keccak, fate, states[n], events[n].input, events[n].tree);
    HeldInTick(OnChain(keccak, fate), states[n], events[n].input, events[n].tree);
  }

  lemma HeldInTick(o: Outside, s: State, i: Input, tree: MerkleTree)
    requires Inv(o, s, None) && TickServed(o, s, i, tree) && s.unconfirmed.Some?
    ensures s.unconfirmed.value.tx < |Tick(s, i, tree).txs|
    ensures var u, r := s.unconfirmed.value, Tick(s, i, tree);
            var standing := r.txs[u.tx].standing;
            && (i.lookup == Some(true) ==> RecordedAs(r, u.tx, u.batch, |s.commits|))
            && (i.lookup == Some(true) <==> standing.Recorded?)
            && (i.lookup == Some(false) <==> standing.Reverted?)
            && (i.lookup.None? && i.now - u.sentAt >= 1_800_000 <==> standing.Expired?)
            && (i.lookup.None? && i.now - u.sentAt < 1_800_000 && |r.txs| == |s.txs| ==>
                  r.unconfirmed == Some(u) && standing.InHold?)
  {
    var u := s.unconfirmed.value;
    if Finalizes(s, i) {
      assert Unlinked(s.reports, u.batch);
      LinkEffect(s.reports, u.batch, |s.commits|);
    }
  }

  /** The tick takes and sends a batch: something is pending, and it is forced, full or old enough. */
  predicate Due(s: State, i: Input)
    requires forall k :: 0 <= k < |i.pending| ==> i.pending[k] in s.reports
  {
    && |i.pending| > 0 && i.maxLeaves > 0
    && (i.force || |i.pending| >= i.maxLeaves || i.later - s.reports[i.pending[0]].createdAt >= i.intervalSec * 1000)
  }

  /** The batch taken is that of the pending reports, as many as allowed, and is empty unless a batch is due. */
  lemma BatchTaken(s: State, i: Input)
    requires forall k :: 0 <= k < |i.pending| ==> i.pending[k] in s.reports
    ensures var batch := NextBatch(s, i);
            && (batch != [] <==> Due(s, i))
            && (batch != [] ==> |batch| == Min(i.maxLeaves, |i.pending|))
            && forall k :: 0 <= k < |batch| ==>
                 batch[k] == PendingReport(i.pending[k], s.reports[i.pending[k]].hash, s.reports[i.pending[k]].createdAt)
  {
  }

  /** One transaction more, over the batch sent, unless the write call throws. */
  lemma SendAddsOne(s: State, batch: seq<PendingReport>, tree: MerkleTree, sending: Sending)
    requires Wellformed(s)
    ensures var r := SendBatch(s, batch, tree, sending);
            && |r.txs| == |s.txs| + (if sending.NotSent? then 0 else 1)
            && (|r.txs| > |s.txs| ==> r.txs[|s.txs|].batch == batch)
  {
  }

  /**
   * Unless a late success is being recorded, a tick sends a transaction exactly if a batch is due
   * and the write call does not throw; and then over the oldest pending reports, as many as allowed.
   */
  lemma TickSendsIff(s: State, i: Input, tree: MerkleTree)
    requires Wellformed(s) && (s.unconfirmed.Some? ==> i.lookup != Some(true))
    requires forall k :: 0 <= k < |i.pending| ==> i.pending[k] in s.reports
    ensures var r := Tick(s, i, tree);
            && |r.txs| == |s.txs| + (if Due(s, i) && !i.sending.NotSent? then 1 else 0)
            && (|r.txs| > |s.txs| ==>
                  var batch := r.txs[|s.txs|].batch;
                  && |batch| == Min(i.maxLeaves, |i.pending|)
                  && forall k :: 0 <= k < |batch| ==>
                       batch[k] == PendingReport(i.pending[k], s.reports[i.pending[k]].hash, s.reports[i.pending[k]].createdAt))
  {
    var q := ResolveHold(s, i);
    assert q.reports == s.reports && |q.txs| == |s.txs|;
    BatchTaken(q, i);
    if NextBatch(q, i) != [] {
      SendAddsOne(q, NextBatch(q, i), tree, i.sending);
    }
  }

  /**
   * A batch just sent is recorded with all its reports on a success receipt, over for good on a
   * revert, and held from the time it was sent when there is none.
   */
  lemma SentBatchFate(keccak: PairHash, fate: TxId -> Option<bool>, states: seq<State>, events: seq<Event>, n: nat)
    requires Run(keccak, fate, states, events) && n < |events| && events[n].Ticks?
    requires |states[n + 1].txs| > |states[n].txs|
    ensures var t, r := |states[n].txs|, states[n + 1];
            match events[n].input.sending
            case NotSent => false
            case Receipt(true) => RecordedAs(r, t, r.txs[t].batch, |states[n].commits|)
            case Receipt(false) => r.txs[t].standing.Reverted? && |r.commits| == |states[n].commits|
            case NoReceipt(at) => r.txs[t].standing.InHold? && r.unconfirmed == Some(Held(t, r.txs[t].batch, at))
  {
    CommitInvariant(keccak, fate, states, events, n);
    AllowedIsServed(keccak, fate, states[n], events[n].input, events[n].tree);
    SentInTick(OnChain(keccak, fate), states[n], events[n].input, events[n].tree);
  }

  lemma SentInTick(o: Outside, s: State, i: Input, tree: MerkleTree)
    requires Inv(o, s, None) && TickServed(o, s, i, tree) && |Tick(s, i, tree).txs| > |s.txs|
    ensures var t, r := |s.txs|, Tick(s, i, tree);
            match i.sending
            case NotSent => false
            case Receipt(true) => RecordedAs(r, t, r.txs[t].batch, |s.commits|)
            case Receipt(false) => r.txs[t].standing.Reverted? && |r.commits| == |s.commits|
            case NoReceipt(at) => r.txs[t].standing.InHold? && r.unconfirmed == Some(Held(t, r.txs[t].batch, at))
  {
    if i.sending == Receipt(true) {
      SentAndRecorded(o, s, i, tree);
    }
  }

  lemma SentAndRecorded(o: Outside, s: State, i: Input, tree: MerkleTree)
    requires Inv(o, s, None) && TickServed(o, s, i, tree) && |Tick(s, i, tree).txs| > |s.txs|
    requires i.sending == Receipt(true)
    ensures RecordedAs(Tick(s, i, tree), |s.txs|, Tick(s, i, tree).txs[|s.txs|].batch, |s.commits|)
  {
    var q := ResolveHold(s, i);
    NextBatchEligible(q, i);
    LinkEffect(q.reports, NextBatch(q, i), |q.commits|);
  }

  // ----- what the hold does not protect

  ghost predicate LeavesWaiting(s: State, i: Input) {
    s.unconfirmed.Some? && DecideUnconfirmed(s.unconfirmed.value.sentAt, i.lookup, i.now) == WaitMore
  }

  /**
   * While its batch waits, a held report becomes eligible again in a tick exactly when that tick
   * sends a further batch and gets no receipt for it either.
   */
  lemma HoldLostIff(keccak: PairHash, fate: TxId -> Option<bool>, states: seq<State>,
                    events: seq<Event>, n: nat, id: ReportId)
    requires Run(keccak, fate, states, events) && n < |events| && events[n].Ticks?
    requires LeavesWaiting(states[n], events[n].input)
    requires InBatch(states[n].unconfirmed.value.batch, id)
    ensures id in states[n].reports && !Eligible(states[n], id)
    ensures states[n].reports[id].valid ==>
      (Eligible(states[n + 1], id) <==> events[n].input.sending.NoReceipt? && NextBatch(states[n], events[n].input) != [])
  {
    CommitInvariant(keccak, fate, states, events, n);
    AllowedIsServed(keccak, fate, states[n], events[n].input, events[n].tree);
    HoldLostInTick(OnChain(keccak, fate), states[n], events[n].input, events[n].tree, id);
  }

  lemma HoldLostInTick(o: Outside, s: State, i: Input, tree: MerkleTree, id: ReportId)
    requires Inv(o, s, None) && TickServed(o, s, i, tree) && LeavesWaiting(s, i)
    requires InBatch(s.unconfirmed.value.batch, id)
    ensures id in s.reports && !Eligible(s, id)
    ensures s.reports[id].valid ==> (Eligible(Tick(s, i, tree), id) <==> i.sending.NoReceipt? && NextBatch(s, i) != [])
  {
    assert Unlinked(s.reports, s.unconfirmed.value.batch);
    NextBatchEligible(s, i);
    if NextBatch(s, i) != [] {
      LinkEffect(s.reports, NextBatch(s, i), |s.commits|);
    }
  }

  // ----- such a run

  /** The tree of a single leaf. */
  function OneLeaf(h: Hex): MerkleTree {
    MerkleTree(Lower(h), 1, [Lower(h)], map[Lower(h) := []])
  }

  lemma OneLeafTree(keccak: PairHash, h: Hex)
    ensures TreeOf(keccak, OneLeaf(h), [h])
  {
    var c := Canonical([h]);
    CanonicalLeaves([h]);
    assert Lowered([h])[0] == Lower(h);
    assert |c| == 1 && c[0] in c;
    assert c == [Lower(h)];
  }

  function Fresh(h: Hex): Report {
    Report(h, 0, true, None, None)
  }

  function SendOne(id: ReportId, now: int): Input {
    Input(None, now, [id], true, now, 1, 0, NoReceipt(now))
  }

  function Pend(id: ReportId, h: Hex): seq<PendingReport> {
    [PendingReport(id, h, 0)]
  }

  /** A transaction over one report, sent at `at` without a receipt. */
  function Unreceipted(id: ReportId, h: Hex, at: int, standing: Standing): Sent {
    Sent(Lower(h), Pend(id, h), NoReceipt(at), standing)
  }

  /** One such tick of the run: the only eligible report goes out alone and stays without a receipt. */
  lemma OneTick(keccak: PairHash, fate: TxId -> Option<bool>, s: State, id: ReportId, now: int)
    requires Wellformed(s) && id in s.reports && s.reports[id].createdAt == 0
    requires forall x :: x in s.reports ==> (Eligible(s, x) <==> x == id)
    requires s.unconfirmed.Some? ==> now - s.unconfirmed.value.sentAt < UNCONFIRMED_MAX_AGE_MS
    ensures var i, tree := SendOne(id, now), OneLeaf(s.reports[id].hash);
            && TickAllowed(keccak, fate, s, i, tree)
            && Tick(s, i, tree) == SendBatch(s, Pend(id, s.reports[id].hash), tree, NoReceipt(now))
  {
    var i, h := SendOne(id, now), s.reports[id].hash;
    OneLeafTree(keccak, h);
    assert ResolveHold(s, i) == s && !Finalizes(s, i);
    assert i.pending[..1] == [id];
    assert NextBatch(s, i) == Pend(id, h);
    assert HashesOf(Pend(id, h)) == [h];
  }

  /** The run extended by one event. */
  lemma RunSnoc(keccak: PairHash, fate: TxId -> Option<bool>, states: seq<State>,
                events: seq<Event>, s: State, e: Event)
    requires Run(keccak, fate, states, events) && s == states[|events|] && Allowed(keccak, fate, s, e)
    ensures Run(keccak, fate, states + [Step(s, e)], events + [e])
  {
    var states', events' := states + [Step(s, e)], events + [e];
    forall i | 0 <= i < |events'|
      ensures Allowed(keccak, fate, states'[i], events'[i]) && states'[i + 1] == Step(states'[i], events'[i])
    {
      if i < |events| {
        assert Allowed(keccak, fate, states[i], events[i]) && states[i + 1] == Step(states[i], events[i]);
      }
    }
  }

  lemma OnlyArrivalEligible(s: State, id: ReportId, h: Hex)
    requires id !in s.reports && forall x :: x in s.reports ==> !Eligible(s, x)
    requires s.unconfirmed.Some? ==> !InBatch(s.unconfirmed.value.batch, id)
    ensures var r := s.(reports := s.reports[id := Fresh(h)]); forall x :: x in r.reports ==> (Eligible(r, x) <==> x == id)
  {
    var r := s.(reports := s.reports[id := Fresh(h)]);
    assert forall x :: x in s.reports ==> (Eligible(r, x) <==> Eligible(s, x));
  }

  /** A report arrives and goes out alone, without a receipt, taking any hold there was. */
  lemma ArriveAndSend(keccak: PairHash, fate: TxId -> Option<bool>, states: seq<State>, events: seq<Event>, s: State,
                      id: ReportId, h: Hex, now: int)
    returns (states': seq<State>, events': seq<Event>, s': State)
    requires Run(keccak, fate, states, events) && s == states[|events|] && Wellformed(s) && id !in s.reports
    requires forall x :: x in s.reports ==> !Eligible(s, x)
    requires s.unconfirmed.Some? ==> now - s.unconfirmed.value.sentAt < UNCONFIRMED_MAX_AGE_MS && !InBatch(s.unconfirmed.value.batch, id)
    ensures Run(keccak, fate, states', events') && s' == states'[|events'|]
    ensures s' == SendBatch(s.(reports := s.reports[id := Fresh(h)]), Pend(id, h), OneLeaf(h), NoReceipt(now))
  {
    var e, r := Arrives(id, Fresh(h)), s.(reports := s.reports[id := Fresh(h)]);
    RunSnoc(keccak, fate, states, events, s, e);
    OnlyArrivalEligible(s, id, h);
    OneTick(keccak, fate, r, id, now);
    RunSnoc(keccak, fate, states + [r], events + [e], r, Ticks(SendOne(id, now), OneLeaf(h)));
    s' := SendBatch(r, Pend(id, h), OneLeaf(h), NoReceipt(now));
    states', events' := states + [r] + [s'], events + [e] + [Ticks(SendOne(id, now), OneLeaf(h))];
  }

  lemma TwoSends(keccak: PairHash, fate: TxId -> Option<bool>, a: Hex, b: Hex)
    returns (states: seq<State>, events: seq<Event>, s: State)
    ensures Run(keccak, fate, states, events) && s == states[|events|]
    ensures s.unconfirmed == Some(Held(1, Pend(1, b), 1)) && s.reports == map[0 := Fresh(a), 1 := Fresh(b)]
    ensures s.txs == [Unreceipted(0, a, 0, Overwritten(1)), Unreceipted(1, b, 1, InHold)]
    ensures forall x :: x in s.reports ==> (Eligible(s, x) <==> x == 0)
  {
    assert Run(keccak, fate, [EMPTY], []);
    var s1;
    states, events, s1 := ArriveAndSend(keccak, fate, [EMPTY], [], EMPTY, 0, a, 0);
    FirstHold(s1, a);
    states, events, s := ArriveAndSend(keccak, fate, states, events, s1, 1, b, 1);
    SecondHold(s1, s, a, b);
  }

  /**
   * Three sends in a row without a receipt: report 0 enters a second transaction although the
   * first neither reverted nor expired, whatever the chain says of it later.
   */
  lemma ResentWhileStillPending(keccak: PairHash, fate: TxId -> Option<bool>, a: Hex, b: Hex)
    returns (states: seq<State>, events: seq<Event>)
    ensures Run(keccak, fate, states, events)
    ensures states[|events|].txs ==
      [Unreceipted(0, a, 0, Overwritten(1)), Unreceipted(1, b, 1, Overwritten(2)), Unreceipted(0, a, 2, InHold)]
  {
    var s;
    states, events, s := TwoSends(keccak, fate, a, b);
    OneTick(keccak, fate, s, 0, 2);
    var e := Ticks(SendOne(0, 2), OneLeaf(a));
    RunSnoc(keccak, fate, states, events, s, e);
    states, events := states + [Step(s, e)], events + [e];
  }

  lemma FirstHold(s1: State, a: Hex)
    requires s1 == SendBatch(EMPTY.(reports := EMPTY.reports[0 := Fresh(a)]), Pend(0, a), OneLeaf(a), NoReceipt(0))
    ensures s1 == State(map[0 := Fresh(a)], [], Some(Held(0, Pend(0, a), 0)), [Unreceipted(0, a, 0, InHold)])
    ensures !Eligible(s1, 0) && !InBatch(Pend(0, a), 1)
  {
    assert Pend(0, a)[0].id == 0;
  }

  /** After the second send only report 0 is eligible, and its transaction lost the hold. */
  lemma SecondHold(s1: State, s2: State, a: Hex, b: Hex)
    requires s1 == State(map[0 := Fresh(a)], [], Some(Held(0, Pend(0, a), 0)), [Unreceipted(0, a, 0, InHold)])
    requires s2 == SendBatch(s1.(reports := s1.reports[1 := Fresh(b)]), Pend(1, b), OneLeaf(b), NoReceipt(1))
    ensures s2.unconfirmed == Some(Held(1, Pend(1, b), 1)) && s2.reports == map[0 := Fresh(a), 1 := Fresh(b)]
    ensures s2.txs == [Unreceipted(0, a, 0, Overwritten(1)), Unreceipted(1, b, 1, InHold)]
    ensures forall x :: x in s2.reports ==> (Eligible(s2, x) <==> x == 0)
  {
    assert Pend(1, b)[0].id == 1;
    assert InBatch(Pend(1, b), 1) && !InBatch(Pend(1, b), 0);
  }
}
