/**
 * Transfers that the topic filter does not find: exactly which of them change the insider replay.
 */
module HiddenTransfers {
  import opened ChainLogs
  import opened InsiderReplay

  /** The same logs with other amounts. */
  function WithAmounts(logs: seq<Log>, amounts: seq<nat>): (r: seq<Log>)
    requires |amounts| == |logs|
    ensures |r| == |logs| && forall i :: 0 <= i < |logs| ==> r[i] == logs[i].(data := amounts[i])
  {
    seq(|logs|, i requires 0 <= i < |logs| => logs[i].(data := amounts[i]))
  }

  /** One token in log `k`, nothing in the others. */
  function OnlyAt(n: nat, k: nat): (r: seq<nat>)
    ensures |r| == n && forall i :: 0 <= i < n ==> r[i] == if i == k then 1 else 0
  {
    seq(n, i => if i == k then 1 else 0)
  }

  /** Replaying the logs that name a wallet gives the same totals as replaying all of them. */
  ghost predicate SameTotals(logs: seq<Log>, cluster: set<Address>, sinks: set<Address>) {
    Replay(ToTransfers(ClusterLogs(logs, cluster)), cluster, sinks) == Replay(ToTransfers(logs), cluster, sinks)
  }

  /** Whatever the amounts, the totals are the same. */
  ghost predicate NeverMissesAmounts(logs: seq<Log>, cluster: set<Address>, sinks: set<Address>) {
    forall amounts: seq<nat> :: |amounts| == |logs| ==> SameTotals(WithAmounts(logs, amounts), cluster, sinks)
  }

  lemma {:induction false} NoAmounts(logs: seq<Log>, cluster: set<Address>, sinks: set<Address>)
    requires forall l :: l in logs ==> l.data == 0
    ensures Replay(ToTransfers(logs), cluster, sinks) == Totals(0, 0, 0, 0)
  {
    if logs != [] {
      var n := |logs| - 1;
      assert forall l :: l in logs[..n] ==> l in logs;
      NoAmounts(logs[..n], cluster, sinks);
      ReplayLast(logs, cluster, sinks);
      assert logs[n] in logs;
    }
  }

  /** An amount in one hidden log that is not inward shows in the holdings or in the traffic with the pool. */
  lemma {:induction false} OneAmount(logs: seq<Log>, k: nat, cluster: set<Address>, sinks: set<Address>)
    requires k < |logs| && logs[k].data > 0 && forall i :: 0 <= i < |logs| && i != k ==> logs[i].data == 0
    requires Hidden(logs[k], cluster) && !Inward(ToTransfer(logs[k]), cluster, sinks)
    ensures var x := Replay(ToTransfers(logs), cluster, sinks); x.agg != 0 || x.sold != 0 || x.bought != 0
  {
    var n := |logs| - 1;
    ReplayLast(logs, cluster, sinks);
    if k < n {
      OneAmount(logs[..n], k, cluster, sinks);
    } else {
      NoAmounts(logs[..n], cluster, sinks);
    }
  }

  /** A hidden transfer that is not inward is missed, whatever the other logs are. */
  lemma HiddenIsMissed(logs: seq<Log>, k: nat, cluster: set<Address>, sinks: set<Address>)
    requires k < |logs| && Hidden(logs[k], cluster) && !Inward(ToTransfer(logs[k]), cluster, sinks)
    ensures !SameTotals(WithAmounts(logs, OnlyAt(|logs|, k)), cluster, sinks)
  {
    var all := WithAmounts(logs, OnlyAt(|logs|, k));
    var found := ClusterLogs(all, cluster);
    OneAmount(all, k, cluster, sinks);
    forall l | l in found ensures l.data == 0 {
      ClusterLogsMembers(all, cluster, l);
      var i :| 0 <= i < |all| && all[i] == l;
      assert i != k;
    }
    NoAmounts(found, cluster, sinks);
  }

  /**
   * The replay of the logs found equals the replay of all transfers for every assignment of
   * amounts, if and only if every transfer that touches the cluster and escapes the topic filter
   * is between two cluster wallets and off the pool.
   */
  lemma NeverMissesIff(logs: seq<Log>, cluster: set<Address>, sinks: set<Address>)
    ensures NeverMissesAmounts(logs, cluster, sinks) <==> HiddenAreInward(logs, cluster, sinks)
  {
    if HiddenAreInward(logs, cluster, sinks) {
      forall amounts: seq<nat> | |amounts| == |logs| ensures SameTotals(WithAmounts(logs, amounts), cluster, sinks) {
        SameHiding(logs, amounts, cluster, sinks);
        InwardHidesNothing(WithAmounts(logs, amounts), cluster, sinks);
      }
    } else {
      var l :| l in logs && Hidden(l, cluster) && !Inward(ToTransfer(l), cluster, sinks);
      var k :| 0 <= k < |logs| && logs[k] == l;
      HiddenIsMissed(logs, k, cluster, sinks);
      assert !NeverMissesAmounts(logs, cluster, sinks);
    }
  }

  /** What hides, and whether it is inward, does not depend on the amounts. */
  lemma SameHiding(logs: seq<Log>, amounts: seq<nat>, cluster: set<Address>, sinks: set<Address>)
    requires |amounts| == |logs| && HiddenAreInward(logs, cluster, sinks)
    ensures HiddenAreInward(WithAmounts(logs, amounts), cluster, sinks)
  {
    var all := WithAmounts(logs, amounts);
    forall l | l in all && Hidden(l, cluster) ensures Inward(ToTransfer(l), cluster, sinks) {
      var i :| 0 <= i < |all| && all[i] == l;
      assert logs[i] in logs && Hidden(logs[i], cluster);
    }
  }

  /** Such a log exists: its sender topic carries garbage above the address bits. */
  lemma UnpaddedTopicHides(token: Address, w: Address, to: Address, v: nat, sinks: set<Address>)
    requires w < ADDRESS_SPACE && to < ADDRESS_SPACE && to != w
    ensures var l := Log(token, [TRANSFER, w + ADDRESS_SPACE, to], v, 1, 0);
            ToTransfer(l) == Transfer(w, to, v) && Hidden(l, {w}) && !Inward(ToTransfer(l), {w}, sinks)
  {
  }
}
