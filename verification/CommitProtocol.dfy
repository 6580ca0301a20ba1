/**
 * Committing report hashes on chain in Merkle batches: choose the pending reports, send one
 * transaction, record it once its receipt shows up, and hold a batch whose receipt is late.
 *
 * `fate` is what the chain finally says about a transaction; receipts never contradict it.
 */
module CommitProtocol {
  import opened Common
  import opened Merkle

  type ReportId = nat

  /** Transactions are numbered in sending order. */
  type TxId = nat

  datatype Report = Report(hash: Hex, createdAt: int, valid: bool, commitId: Option<nat>, leafHash: Option<Hex>)

  datatype PendingReport = PendingReport(id: ReportId, reportHash: Hex, createdAt: int)

  datatype LeafRecord = LeafRecord(reportHash: Hex, index: int, proof: seq<Hex>)

  datatype CommitRow = CommitRow(root: Hex, leafCount: nat, leaves: seq<LeafRecord>, tx: TxId)

  datatype Held = Held(tx: TxId, batch: seq<PendingReport>, sentAt: int)

  /** Where a sent transaction stands with the protocol; the last three release its reports. */
  datatype Standing =
    | InHold
    | Recorded(commit: nat)
    | Reverted
    | Expired(sentAt: int, droppedAt: int)
    | Overwritten(newer: TxId)

  predicate Released(x: Standing) {
    x.Reverted? || x.Expired? || x.Overwritten?
  }

  /** How sending went: the write call threw, or a receipt came in time, or none did. */
  datatype Sending = NotSent | Receipt(success: bool) | NoReceipt(sentAt: int)

  /** History of one sent transaction. */
  datatype Sent = Sent(root: Hex, batch: seq<PendingReport>, sending: Sending, standing: Standing)

  datatype State = State(reports: map<ReportId, Report>, commits: seq<CommitRow>, unconfirmed: Option<Held>, txs: seq<Sent>)

  const UNCONFIRMED_MAX_AGE_MS := 30 * 60_000

  datatype UnconfirmedAction = FinalizeBatch | WaitMore | DropReverted | DropExpired

  /** What to do with a held batch: `receipt` is this tick's lookup, success or revert if present. */
  function DecideUnconfirmed(sentAt: int, receipt: Option<bool>, now: int): UnconfirmedAction {
    if receipt.Some? then (if receipt.value then FinalizeBatch else DropReverted)
    else if now - sentAt >= UNCONFIRMED_MAX_AGE_MS then DropExpired else WaitMore
  }

  /** Everything one tick learns from outside. */
  datatype Input = Input(
    lookup: Option<bool>, now: int, pending: seq<ReportId>, force: bool, later: int,
    maxLeaves: nat, intervalSec: int, sending: Sending)

  // ----- one tick

  function HashesOf(batch: seq<PendingReport>): (r: seq<Hex>)
    ensures |r| == |batch| && forall i :: 0 <= i < |batch| ==> r[i] == batch[i].reportHash
  {
    seq(|batch|, i requires 0 <= i < |batch| => batch[i].reportHash)
  }

  predicate InBatch(batch: seq<PendingReport>, id: ReportId) {
    exists i :: 0 <= i < |batch| && batch[i].id == id
  }

  function Stand(txs: seq<Sent>, t: TxId, x: Standing): seq<Sent>
    requires t < |txs|
  {
    txs[t := txs[t].(standing := x)]
  }

  predicate Wellformed(s: State) {
    s.unconfirmed.Some? ==> s.unconfirmed.value.tx < |s.txs| && s.unconfirmed.value.batch != []
  }

  /** The state after a held batch is dropped or left waiting. */
  function ResolveHold(s: State, i: Input): State
    requires Wellformed(s)
  {
    if s.unconfirmed.None? then s
    else
      var u := s.unconfirmed.value;
      match DecideUnconfirmed(u.sentAt, i.lookup, i.now)
      case WaitMore => s
      case FinalizeBatch => s.(unconfirmed := None)
      case DropReverted => s.(unconfirmed := None, txs := Stand(s.txs, u.tx, Reverted))
      case DropExpired => s.(unconfirmed := None, txs := Stand(s.txs, u.tx, Expired(u.sentAt, i.now)))
  }

  predicate Finalizes(s: State, i: Input) {
    s.unconfirmed.Some? && DecideUnconfirmed(s.unconfirmed.value.sentAt, i.lookup, i.now) == FinalizeBatch
  }

  /** Reports the next batch may draw on: valid, uncommitted, and not held. */
  predicate Eligible(s: State, id: ReportId) {
    && id in s.reports && s.reports[id].valid && s.reports[id].commitId.None?
    && (s.unconfirmed.Some? ==> !InBatch(s.unconfirmed.value.batch, id))
  }

  /** The database's answer: every eligible report once, oldest first. */
  ghost predicate IsPendingList(s: State, ids: seq<ReportId>) {
    && (forall k :: 0 <= k < |ids| ==> Eligible(s, ids[k]))
    && (forall id :: id in s.reports && Eligible(s, id) ==> id in ids)
    && (forall k, l :: 0 <= k < l < |ids| ==> ids[k] != ids[l] && s.reports[ids[k]].createdAt <= s.reports[ids[l]].createdAt)
  }

  predicate Ready(s: State, i: Input)
    requires i.pending != [] && i.pending[0] in s.reports
  {
    i.force || |i.pending| >= i.maxLeaves || i.later - s.reports[i.pending[0]].createdAt >= i.intervalSec * 1000
  }

  function BatchOf(reports: map<ReportId, Report>, ids: seq<ReportId>): (r: seq<PendingReport>)
    requires forall k :: 0 <= k < |ids| ==> ids[k] in reports
    ensures |r| == |ids|
  {
    seq(|ids|, k requires 0 <= k < |ids| => PendingReport(ids[k], reports[ids[k]].hash, reports[ids[k]].createdAt))
  }

  /** The batch a tick would send, empty if it sends nothing. */
  function NextBatch(s: State, i: Input): seq<PendingReport>
    requires forall k :: 0 <= k < |i.pending| ==> i.pending[k] in s.reports
  {
    if i.pending == [] || !Ready(s, i) then []
    else BatchOf(s.reports, i.pending[..Min(i.maxLeaves, |i.pending|)])
  }

  function IndexOf(leaves: seq<Hex>, x: Hex): int {
    if leaves == [] then -1
    else if leaves[0] == x then 0
    else var r := IndexOf(leaves[1..], x); if r < 0 then -1 else r + 1
  }

  function LeafRecords(batch: seq<PendingReport>, tree: MerkleTree): (r: seq<LeafRecord>)
    ensures |r| == |batch|
  {
    seq(|batch|, k requires 0 <= k < |batch| =>
      var h := Lower(batch[k].reportHash);
      LeafRecord(h, IndexOf(tree.leaves, h), if h in tree.proofs then tree.proofs[h] else []))
  }

  function Link(reports: map<ReportId, Report>, batch: seq<PendingReport>,
                commit: nat): map<ReportId, Report> {
    map id | id in reports ::
      if InBatch(batch, id) then reports[id].(commitId := Some(commit), leafHash := Some(Lower(reports[id].hash)))
      else reports[id]
  }

  /** Store the commit row and point its reports at it. */
  function RecordBatch(s: State, batch: seq<PendingReport>, tree: MerkleTree, t: TxId): State
    requires t < |s.txs|
  {
    var c := |s.commits|;
    s.(commits := s.commits + [CommitRow(tree.root, tree.leafCount, LeafRecords(batch, tree), t)],
       reports := Link(s.reports, batch, c),
       txs := Stand(s.txs, t, Recorded(c)))
  }

  /** A batch goes out. Without a receipt it becomes the held batch, whatever was held before. */
  function SendBatch(s: State, batch: seq<PendingReport>, tree: MerkleTree,
                     sending: Sending): State
    requires Wellformed(s)
  {
    var t := |s.txs|;
    match sending
    case NotSent => s
    case Receipt(success) =>
      if success then RecordBatch(s.(txs := s.txs + [Sent(tree.root, batch, sending, InHold)]), batch, tree, t)
      else s.(txs := s.txs + [Sent(tree.root, batch, sending, Reverted)])
    case NoReceipt(sentAt) =>
      assert s.unconfirmed.Some? ==> s.unconfirmed.value.tx < |s.txs|;
      var txs := if s.unconfirmed.Some? then Stand(s.txs, s.unconfirmed.value.tx, Overwritten(t)) else s.txs;
      s.(txs := txs + [Sent(tree.root, batch, sending, InHold)], unconfirmed := Some(Held(t, batch, sentAt)))
  }

  /** The batch whose tree a tick builds: the held one when finalizing, else the next one. */
  function TickBatch(s: State, i: Input): seq<PendingReport>
    requires Wellformed(s)
    requires forall k :: 0 <= k < |i.pending| ==> i.pending[k] in s.reports
  {
    if Finalizes(s, i) then s.unconfirmed.value.batch else NextBatch(ResolveHold(s, i), i)
  }

  function Tick(s: State, i: Input, tree: MerkleTree): State
    requires Wellformed(s)
    requires forall k :: 0 <= k < |i.pending| ==> i.pending[k] in s.reports
  {
    var r := ResolveHold(s, i);
    if Finalizes(s, i) then RecordBatch(r, s.unconfirmed.value.batch, tree, s.unconfirmed.value.tx)
    else if NextBatch(r, i) == [] then r
    else SendBatch(r, NextBatch(r, i), tree, i.sending)
  }

  // ----- the job

  class CommitJob {
    var reports: map<ReportId, Report>
    var commits: seq<CommitRow>
    var unconfirmed: Option<Held>
    ghost var txs: seq<Sent>
    /** How many transactions were sent; the next one's number. */
    var sent: nat

    ghost predicate Valid()
      reads this
    {
      sent == |txs| && Wellformed(Model())
    }

    ghost function Model(): State
      reads this
    {
      State(reports, commits, unconfirmed, txs)
    }

    /** One run of the batch job; `tree` is what the tree builder returned, if it was called. */
    method RunCommitBatch(keccak: PairHash,
                          i: Input) returns (committed: bool, ghost tree: MerkleTree)
      requires Valid() && LowercaseDigests(keccak)
      requires !Finalizes(Model(), i) ==> IsPendingList(ResolveHold(Model(), i), i.pending)
      requires forall k :: 0 <= k < |i.pending| ==> i.pending[k] in reports
      modifies this
      ensures Valid()
      ensures var b := TickBatch(old(Model()), i); b != [] ==> TreeOf(keccak, tree, HashesOf(b))
      ensures Model() == Tick(old(Model()), i, tree)
      ensures committed <==> |commits| == |old(commits)| + 1
    {
      var late := CheckHeld(i);
      if late.Some? {
        var built := BuildMerkleTree(keccak, HashesOf(late.value.batch));
        tree := built.value;
        Record(late.value.batch, built.value, late.value.tx);
        committed := true;
      } else {
        committed, tree := SendNext(keccak, i);
      }
    }

    /** Pick the next batch, if one is due, and send it. */
    method SendNext(keccak: PairHash,
                    i: Input) returns (committed: bool, ghost tree: MerkleTree)
      requires Valid() && LowercaseDigests(keccak)
      requires forall k :: 0 <= k < |i.pending| ==> i.pending[k] in reports
      modifies this
      ensures Valid()
      ensures var b := NextBatch(old(Model()), i);
              if b == [] then Model() == old(Model())
              else TreeOf(keccak, tree, HashesOf(b)) && Model() == SendBatch(old(Model()), b, tree, i.sending)
      ensures committed <==> |commits| == |old(commits)| + 1
    {
      tree := MerkleTree(Hex(""), 0, [], map[]);
      committed := false;
      if |i.pending| == 0 {
        return;
      }
      var ready := i.force || |i.pending| >= i.maxLeaves
                   || i.later - reports[i.pending[0]].createdAt >= i.intervalSec * 1000;
      if !ready {
        return;
      }
      var batch := BatchOf(reports, i.pending[..Min(i.maxLeaves, |i.pending|)]);
      if |batch| == 0 {
        return;
      }
      var built := BuildMerkleTree(keccak, HashesOf(batch));
      tree := built.value;
      committed := Send(batch, built.value, i.sending);
    }

    /** Resolve a held batch first; a late success is handed back for recording. */
    method CheckHeld(i: Input) returns (late: Option<Held>)
      requires Valid()
      modifies this
      ensures Valid() && Model() == ResolveHold(old(Model()), i)
      ensures late == if Finalizes(old(Model()), i) then old(unconfirmed) else None
    {
      late := None;
      if unconfirmed.Some? {
        var u := unconfirmed.value;
        var action := DecideUnconfirmed(u.sentAt, i.lookup, i.now);
        if action != WaitMore {
          unconfirmed := None;
          if action == FinalizeBatch {
            return Some(u);
          }
          txs := Stand(txs, u.tx, if action == DropReverted then Reverted else Expired(u.sentAt, i.now));
        }
      }
    }

    method Send(batch: seq<PendingReport>, tree: MerkleTree,
                sending: Sending) returns (committed: bool)
      requires Valid() && batch != []
      modifies this
      ensures Valid() && Model() == SendBatch(old(Model()), batch, tree, sending)
      ensures committed <==> |commits| == |old(commits)| + 1
    {
      committed := false;
      match sending {
        case NotSent =>
        case Receipt(success) =>
          var t := sent;
          sent := sent + 1;
          txs := txs + [Sent(tree.root, batch, sending, if success then InHold else Reverted)];
          if success {
            Record(batch, tree, t);
            committed := true;
          }
        case NoReceipt(sentAt) =>
          if unconfirmed.Some? {
            txs := Stand(txs, unconfirmed.value.tx, Overwritten(sent));
          }
          txs := txs + [Sent(tree.root, batch, sending, InHold)];
          unconfirmed := Some(Held(sent, batch, sentAt));
          sent := sent + 1;
      }
    }

    method Record(batch: seq<PendingReport>, tree: MerkleTree, t: TxId)
      requires sent == |txs| && t < |txs| && Wellformed(Model())
      modifies this
      ensures sent == |txs| == |old(txs)| && Wellformed(Model())
      ensures Model() == RecordBatch(old(Model()), batch, tree, t)
    {
      var c := |commits|;
      commits := commits + [CommitRow(tree.root, tree.leafCount, LeafRecords(batch, tree), t)];
      reports := Link(reports, batch, c);
      txs := Stand(txs, t, Recorded(c));
    }
  }
}
