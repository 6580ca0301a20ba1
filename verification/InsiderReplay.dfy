/**
 * The INSIDER_EXIT outcome: replay the creator cluster's token transfers and ask whether it
 * net-sold at least half of its peak holdings, measured against plain per-address balances.
 */
module InsiderReplay {
  import opened Common
  import opened Sorting
  import opened ChainLogs

  const MAX_INSIDER_LOGS := 30_000
  const MAX_HOLDER_LOGS := 20_000
  const TRANSFER: nat := 0xddf252ad1be2c89b69c2b068fc378daa952ba7f163c4a11628f55a4df523b3ef
  const ZERO_ADDRESS: Address := 0
  const ADDRESS_SPACE: nat := 0x1_0000_0000_0000_0000_0000_0000_0000_0000_0000_0000

  datatype Transfer = Transfer(from: Address, to: Address, value: nat)

  /** The low 20 bytes of a topic. */
  function TopicToAddress(topic: nat): Address {
    topic % ADDRESS_SPACE
  }

  /** A transfer log names both parties. */
  predicate IsTransfer(l: Log) {
    |l.topics| >= 3
  }

  function ToTransfer(l: Log): Transfer
    requires IsTransfer(l)
  {
    Transfer(TopicToAddress(l.topics[1]), TopicToAddress(l.topics[2]), l.data)
  }

  function ToTransfers(logs: seq<Log>): (r: seq<Transfer>) {
    if logs == [] then []
    else
      var n := |logs| - 1;
      ToTransfers(logs[..n]) + (if IsTransfer(logs[n]) then [ToTransfer(logs[n])] else [])
  }

  // ----- plain balances

  function Bump(balances: map<Address, int>, a: Address, delta: int): map<Address, int> {
    if a == ZERO_ADDRESS then balances
    else balances[a := (if a in balances then balances[a] else 0) + delta]
  }

  function BalanceOf(balances: map<Address, int>, a: Address): int {
    if a in balances then balances[a] else 0
  }

  /** What an address received less what it sent. */
  function NetFlow(ts: seq<Transfer>, a: Address): int {
    if ts == [] then 0
    else
      var t := ts[|ts| - 1];
      NetFlow(ts[..|ts| - 1], a) + (if t.to == a then t.value else 0) - (if t.from == a then t.value else 0)
  }

  /** Balances from the token's transfer logs: every address but zero holds its net flow. */
  method ReconstructBalances(chain: seq<Log>, token: Address, fromBlock: nat, toBlock: nat,
                             maxRange: int)
    returns (r: Result<Option<map<Address, int>>>)
    requires IsChain(chain)
    ensures r.Ok? <==> maxRange >= 1
    ensures var logs := AllTransfers(chain, token, fromBlock, toBlock);
            r.Ok? ==>
              && (r.value.Some? <==> |logs| <= 20_000)
              && (r.value.Some? ==> forall a: Address :: BalanceOf(r.value.value, a) == if a == ZERO_ADDRESS then 0 else NetFlow(ToTransfers(logs), a))
  {
    var fetched := GetLogsChunked(chain, Filter([token], [OneOf([TRANSFER])]), fromBlock, toBlock, maxRange);
    if fetched.Err? {
      return Err(fetched.error);
    }
    var logs := fetched.value;
    if |logs| > MAX_HOLDER_LOGS {
      return Ok(None);
    }
    var bal: map<Address, int> := map[];
    for i := 0 to |logs|
      invariant forall a: Address :: BalanceOf(bal, a) == if a == ZERO_ADDRESS then 0 else NetFlow(ToTransfers(logs[..i]), a)
    {
      assert logs[..i + 1][..i] == logs[..i];
      if IsTransfer(logs[i]) {
        var t := ToTransfer(logs[i]);
        ghost var before := ToTransfers(logs[..i]);
        assert ToTransfers(logs[..i + 1]) == before + [t];
        forall a: Address
          ensures NetFlow(before + [t], a) == NetFlow(before, a) + (if t.to == a then t.value else 0) - (if t.from == a then t.value else 0)
        {
          assert (before + [t])[..|before|] == before;
        }
        bal := Bump(bal, t.from, 0 - t.value);
        bal := Bump(bal, t.to, t.value);
      } else {
        assert ToTransfers(logs[..i + 1]) == ToTransfers(logs[..i]);
      }
    }
    assert logs[..|logs|] == logs;
    r := Ok(Some(bal));
  }

  function AllTransfers(chain: seq<Log>, token: Address, from: int, until: int): seq<Log> {
    Query(chain, Filter([token], [OneOf([TRANSFER])]), from, until)
  }

  // ----- the replay

  /** Running totals: holdings of the cluster, their peak, and traffic with the pool. */
  datatype Totals = Totals(agg: int, peak: int, sold: int, bought: int)

  function ReplayOne(x: Totals, cluster: set<Address>, sinks: set<Address>,
                     t: Transfer): Totals {
    var out := if t.from in cluster then t.value else 0;
    var into := if t.to in cluster then t.value else 0;
    var agg := x.agg - out + into;
    Totals(agg, if agg > x.peak then agg else x.peak,
           x.sold + (if t.from in cluster && t.to in sinks then t.value else 0),
           x.bought + (if t.to in cluster && t.from in sinks then t.value else 0))
  }

  function Replay(ts: seq<Transfer>, cluster: set<Address>, sinks: set<Address>): Totals {
    if ts == [] then Totals(0, 0, 0, 0)
    else ReplayOne(Replay(ts[..|ts| - 1], cluster, sinks), cluster, sinks, ts[|ts| - 1])
  }

  predicate ExitVerdict(x: Totals) {
    x.peak != 0 && (x.sold - x.bought) * 2 >= x.peak
  }

  // ----- the replay against plain balances

  /** The cluster's holdings: its members' balances added up. */
  function Holdings(ts: seq<Transfer>, wallets: seq<Address>): int {
    if wallets == [] then 0 else Holdings(ts, wallets[..|wallets| - 1]) + NetFlow(ts, wallets[|wallets| - 1])
  }

  /** The most the cluster ever held, at least zero. */
  function PeakHoldings(ts: seq<Transfer>, wallets: seq<Address>): int {
    if ts == [] then 0 else Max(PeakHoldings(ts[..|ts| - 1], wallets), Holdings(ts, wallets))
  }

  function AsSet(wallets: seq<Address>): set<Address> {
    set a | a in wallets
  }

  lemma {:induction false} HoldingsStep(ts: seq<Transfer>, wallets: seq<Address>)
    requires ts != [] && NoRepeats(wallets)
    ensures var t := ts[|ts| - 1];
            Holdings(ts, wallets) == Holdings(ts[..|ts| - 1], wallets)
              + (if t.to in wallets then t.value else 0) - (if t.from in wallets then t.value else 0)
  {
    if wallets != [] {
      var n := |wallets| - 1;
      HoldingsStep(ts, wallets[..n]);
      assert wallets == wallets[..n] + [wallets[n]];
      assert wallets[n] !in wallets[..n];
    }
  }

  lemma {:induction false} HoldingsOfNothing(wallets: seq<Address>)
    ensures Holdings([], wallets) == 0
  {
    if wallets != [] {
      HoldingsOfNothing(wallets[..|wallets| - 1]);
    }
  }

  /**
   * At every point of the replay the running total is the sum of the members' balances, and the
   * peak is the greatest such sum, or zero.
   */
  lemma {:induction false} ReplayTracksBalances(ts: seq<Transfer>, wallets: seq<Address>,
        sinks: set<Address>)
    requires NoRepeats(wallets)
    ensures Replay(ts, AsSet(wallets), sinks).agg == Holdings(ts, wallets)
    ensures Replay(ts, AsSet(wallets), sinks).peak == PeakHoldings(ts, wallets) >= 0
  {
    if ts == [] {
      HoldingsOfNothing(wallets);
    } else {
      ReplayTracksBalances(ts[..|ts| - 1], wallets, sinks);
      HoldingsStep(ts, wallets);
    }
  }

  /** The amounts sent from one set of addresses to another. */
  function Flow(ts: seq<Transfer>, senders: set<Address>, receivers: set<Address>): nat {
    if ts == [] then 0
    else
      var t := ts[|ts| - 1];
      Flow(ts[..|ts| - 1], senders, receivers) + (if t.from in senders && t.to in receivers then t.value else 0)
  }

  /** Sales are what went from the cluster to the pool, purchases what came from the pool to the cluster. */
  lemma {:induction false} ReplayTracksTrade(ts: seq<Transfer>, cluster: set<Address>, sinks: set<Address>)
    ensures Replay(ts, cluster, sinks).sold == Flow(ts, cluster, sinks)
    ensures Replay(ts, cluster, sinks).bought == Flow(ts, sinks, cluster)
  {
    if ts != [] {
      ReplayTracksTrade(ts[..|ts| - 1], cluster, sinks);
    }
  }

  /** Holdings are what came in from anyone less what went out to anyone. */
  lemma {:induction false} HoldingsAreFlows(ts: seq<Transfer>, wallets: seq<Address>, anyone: set<Address>)
    requires NoRepeats(wallets) && forall i :: 0 <= i < |ts| ==> ts[i].from in anyone && ts[i].to in anyone
    ensures Holdings(ts, wallets) == Flow(ts, anyone, AsSet(wallets)) - Flow(ts, AsSet(wallets), anyone)
  {
    if ts == [] {
      HoldingsOfNothing(wallets);
    } else {
      HoldingsAreFlows(ts[..|ts| - 1], wallets, anyone);
      HoldingsStep(ts, wallets);
    }
  }

  /** The totals are the cluster's balance, its peak, and its traffic with the pool, over these transfers. */
  ghost predicate Measures(x: Totals, ts: seq<Transfer>, wallets: seq<Address>, sinks: set<Address>) {
    && x.agg == Holdings(ts, wallets) && x.peak == PeakHoldings(ts, wallets)
    && x.sold == Flow(ts, AsSet(wallets), sinks) && x.bought == Flow(ts, sinks, AsSet(wallets))
  }

  lemma ReplayMeasures(ts: seq<Transfer>, wallets: seq<Address>, sinks: set<Address>)
    requires NoRepeats(wallets)
    ensures Measures(Replay(ts, AsSet(wallets), sinks), ts, wallets, sinks) && PeakHoldings(ts, wallets) >= 0
  {
    ReplayTracksBalances(ts, wallets, sinks);
    ReplayTracksTrade(ts, AsSet(wallets), sinks);
  }

  function BalanceSum(balances: map<Address, int>, wallets: seq<Address>): int {
    if wallets == [] then 0
    else BalanceSum(balances, wallets[..|wallets| - 1]) + BalanceOf(balances, wallets[|wallets| - 1])
  }

  /**
   * The cluster's reconstructed balances add up to its holdings, short of the zero address's own
   * flow, which reconstruction ignores, if a cluster lists it.
   */
  lemma {:induction false} BalancesAddUp(balances: map<Address, int>, ts: seq<Transfer>,
        wallets: seq<Address>)
    requires NoRepeats(wallets)
    requires forall a: Address :: BalanceOf(balances, a) == if a == ZERO_ADDRESS then 0 else NetFlow(ts, a)
    ensures BalanceSum(balances, wallets)
         == Holdings(ts, wallets) - (if ZERO_ADDRESS in wallets then NetFlow(ts, ZERO_ADDRESS) else 0)
  {
    if wallets != [] {
      var n := |wallets| - 1;
      BalancesAddUp(balances, ts, wallets[..n]);
      assert wallets == wallets[..n] + [wallets[n]];
      assert wallets[n] !in wallets[..n];
    }
  }

  // ----- leaving out transfers that do not touch the cluster

  predicate Touches(cluster: set<Address>, t: Transfer) {
    t.from in cluster || t.to in cluster
  }

  function Touching(ts: seq<Transfer>, cluster: set<Address>): (r: seq<Transfer>) {
    if ts == [] then []
    else Touching(ts[..|ts| - 1], cluster) + (if Touches(cluster, ts[|ts| - 1]) then [ts[|ts| - 1]] else [])
  }

  /** Other people's transfers change nothing. */
  lemma {:induction false} ReplayOnlyNeedsCluster(ts: seq<Transfer>, cluster: set<Address>,
        sinks: set<Address>)
    ensures Replay(Touching(ts, cluster), cluster, sinks) == Replay(ts, cluster, sinks)
    ensures Replay(ts, cluster, sinks).agg <= Replay(ts, cluster, sinks).peak
  {
    if ts != [] {
      var n := |ts| - 1;
      ReplayOnlyNeedsCluster(ts[..n], cluster, sinks);
      var before := Touching(ts[..n], cluster);
      if Touches(cluster, ts[n]) {
        assert (before + [ts[n]])[..|before|] == before;
      } else {
        assert Touching(ts, cluster) == before;
      }
    }
  }

  // ----- from logs to the replayed transfers

  predicate LogTouches(cluster: set<Address>, l: Log) {
    |l.topics| >= 2 && (l.topics[1] in cluster || (|l.topics| >= 3 && l.topics[2] in cluster))
  }

  /** Of the token's transfer logs, those naming a cluster wallet in either position. */
  function ClusterLogs(logs: seq<Log>, cluster: set<Address>): (r: seq<Log>) {
    if logs == [] then []
    else ClusterLogs(logs[..|logs| - 1], cluster) + (if LogTouches(cluster, logs[|logs| - 1]) then [logs[|logs| - 1]] else [])
  }

  lemma {:induction false} ClusterLogsMembers(logs: seq<Log>, cluster: set<Address>, l: Log)
    ensures l in ClusterLogs(logs, cluster) <==> l in logs && LogTouches(cluster, l)
  {
    if logs != [] {
      var n := |logs| - 1;
      assert logs == logs[..n] + [logs[n]];
      ClusterLogsMembers(logs[..n], cluster, l);
    }
  }

  lemma {:induction false} ClusterLogsOrdered(logs: seq<Log>, cluster: set<Address>)
    requires SortedBy(KeyLe, logs) && NoRepeats(logs)
    ensures SortedBy(KeyLe, ClusterLogs(logs, cluster)) && NoRepeats(ClusterLogs(logs, cluster))
  {
    if logs != [] {
      var n := |logs| - 1;
      ClusterLogsOrdered(logs[..n], cluster);
      var c := ClusterLogs(logs[..n], cluster);
      forall i | 0 <= i < |c| ensures KeyLe(c[i], logs[n]) && c[i] != logs[n] {
        ClusterLogsMembers(logs[..n], cluster, c[i]);
        var j :| 0 <= j < n && logs[j] == c[i];
      }
    }
  }

  /** The log moves a cluster wallet's tokens but escapes the topic filter. */
  predicate Hidden(l: Log, cluster: set<Address>) {
    IsTransfer(l) && Touches(cluster, ToTransfer(l)) && !LogTouches(cluster, l)
  }

  /** Between two cluster wallets, neither of them the pool. */
  predicate Inward(t: Transfer, cluster: set<Address>, sinks: set<Address>) {
    Internal(cluster, t) && t.from !in sinks && t.to !in sinks
  }

  ghost predicate HiddenAreInward(logs: seq<Log>, cluster: set<Address>, sinks: set<Address>) {
    forall l :: l in logs && Hidden(l, cluster) ==> Inward(ToTransfer(l), cluster, sinks)
  }

  /** Zero-padded topics, as every honest token emits them, hide nothing. */
  lemma PaddedTopics(logs: seq<Log>, cluster: set<Address>, sinks: set<Address>)
    requires forall l, k :: l in logs && 1 <= k <= 2 && k < |l.topics| ==> l.topics[k] < ADDRESS_SPACE
    ensures forall l :: l in logs ==> !Hidden(l, cluster)
    ensures HiddenAreInward(logs, cluster, sinks)
  {
    forall l | l in logs && IsTransfer(l) ensures Touches(cluster, ToTransfer(l)) <==> LogTouches(cluster, l) {
      assert l.topics[1] < ADDRESS_SPACE && l.topics[2] < ADDRESS_SPACE;
    }
  }

  function ReplayLog(x: Totals, cluster: set<Address>, sinks: set<Address>, l: Log): Totals {
    if IsTransfer(l) then ReplayOne(x, cluster, sinks, ToTransfer(l)) else x
  }

  lemma ReplayLast(logs: seq<Log>, cluster: set<Address>, sinks: set<Address>)
    requires logs != []
    ensures var n := |logs| - 1;
            Replay(ToTransfers(logs), cluster, sinks) ==
            ReplayLog(Replay(ToTransfers(logs[..n]), cluster, sinks), cluster, sinks, logs[n])
  {
    var n := |logs| - 1;
    var t := ToTransfers(logs[..n]);
    if IsTransfer(logs[n]) {
      ReplaySnoc(t, ToTransfer(logs[n]), cluster, sinks);
    } else {
      assert ToTransfers(logs) == t;
    }
  }

  /** If only inward transfers hide, replaying the logs that name a wallet is replaying them all. */
  lemma {:induction false} InwardHidesNothing(logs: seq<Log>, cluster: set<Address>, sinks: set<Address>)
    requires HiddenAreInward(logs, cluster, sinks)
    ensures Replay(ToTransfers(ClusterLogs(logs, cluster)), cluster, sinks) == Replay(ToTransfers(logs), cluster, sinks)
  {
    if logs != [] {
      var n := |logs| - 1;
      var l, c := logs[n], ClusterLogs(logs[..n], cluster);
      assert forall x :: x in logs[..n] ==> x in logs;
      InwardHidesNothing(logs[..n], cluster, sinks);
      ReplayLast(logs, cluster, sinks);
      ReplayOnlyNeedsCluster(ToTransfers(logs[..n]), cluster, sinks);
      if LogTouches(cluster, l) {
        assert (c + [l])[..|c|] == c;
        ReplayLast(c + [l], cluster, sinks);
      } else {
        assert ClusterLogs(logs, cluster) == c;
        assert l in logs;
      }
    }
  }

  lemma ToTransfersSnoc(logs: seq<Log>, l: Log)
    ensures ToTransfers(logs + [l]) == ToTransfers(logs) + (if IsTransfer(l) then [ToTransfer(l)] else [])
  {
    assert (logs + [l])[..|logs|] == logs;
  }

  lemma ReplaySnoc(ts: seq<Transfer>, t: Transfer, cluster: set<Address>, sinks: set<Address>)
    ensures Replay(ts + [t], cluster, sinks) == ReplayOne(Replay(ts, cluster, sinks), cluster, sinks, t)
  {
    assert (ts + [t])[..|ts|] == ts;
  }

  lemma FetchedMember(chain: seq<Log>, token: Address, wallets: seq<Address>, position: nat,
                      from: int, until: int, l: Log)
    requires 1 <= position <= 2
    ensures l in Query(chain, ValueFilter([token], TRANSFER, position, wallets), from, until) <==>
      l in AllTransfers(chain, token, from, until) && |l.topics| > position && l.topics[position] in wallets
  {
    QueryMember(chain, [token], TRANSFER, position, wallets, from, until, l);
    var f := Filter([token], [OneOf([TRANSFER])]);
    QueryMembers(chain, f, from, until, l);
    assert f.slots[0] == OneOf([TRANSFER]);
  }

  /** The two fetches together hold exactly the cluster's logs. */
  lemma FetchedAreClusterLogs(chain: seq<Log>, token: Address, wallets: seq<Address>, from: int,
                              until: int, events: seq<Log>)
    requires IsChain(chain) && NoRepeats(events)
    requires forall l :: l in events <==>
      l in Query(chain, ValueFilter([token], TRANSFER, 1, wallets), from, until)
      || l in Query(chain, ValueFilter([token], TRANSFER, 2, wallets), from, until)
    ensures SortBy(KeyLe, events) == ClusterLogs(AllTransfers(chain, token, from, until), AsSet(wallets))
  {
    var all := AllTransfers(chain, token, from, until);
    var c := ClusterLogs(all, AsSet(wallets));
    var s := SortBy(KeyLe, events);
    KeyOrder();
    SortBySorted(KeyLe, events);
    SortKeepsDistinct(KeyLe, events);
    SortByMembers(KeyLe, events);
    QueryOrdered(chain, Filter([token], [OneOf([TRANSFER])]), from, until);
    ClusterLogsOrdered(all, AsSet(wallets));
    forall l ensures l in s <==> l in c {
      FetchedMember(chain, token, wallets, 1, from, until, l);
      FetchedMember(chain, token, wallets, 2, from, until, l);
      ClusterLogsMembers(all, AsSet(wallets), l);
    }
    forall x, y | x in s && y in s && KeyLe(x, y) && KeyLe(y, x) ensures x == y {
      ClusterLogsMembers(all, AsSet(wallets), x);
      ClusterLogsMembers(all, AsSet(wallets), y);
      QueryMembers(chain, Filter([token], [OneOf([TRANSFER])]), from, until, x);
      QueryMembers(chain, Filter([token], [OneOf([TRANSFER])]), from, until, y);
      SameKeySameLog(chain, x, y);
    }
    SortedDetermined(KeyLe, s, c);
  }

  // ----- resolving the outcome

  datatype Resolution = Unresolvable | Resolved(exit: bool, totals: Totals)

  method ReplayTransfer(x: Totals, cluster: set<Address>, sinks: set<Address>,
                        t: Transfer) returns (y: Totals)
    ensures y == ReplayOne(x, cluster, sinks, t)
  {
    var agg, peak, sold, bought := x.agg, x.peak, x.sold, x.bought;
    var fromCluster, toCluster := t.from in cluster, t.to in cluster;
    if fromCluster {
      agg := agg - t.value;
    }
    if toCluster {
      agg := agg + t.value;
    }
    if agg > peak {
      peak := agg;
    }
    if fromCluster && t.to in sinks {
      sold := sold + t.value;
    }
    if toCluster && t.from in sinks {
      bought := bought + t.value;
    }
    y := Totals(agg, peak, sold, bought);
  }

  method ReplayLogs(logs: seq<Log>, cluster: set<Address>,
                    sinks: set<Address>) returns (x: Totals)
    ensures x == Replay(ToTransfers(logs), cluster, sinks)
  {
    x := Totals(0, 0, 0, 0);
    for i := 0 to |logs|
      invariant x == Replay(ToTransfers(logs[..i]), cluster, sinks)
    {
      assert logs[..i + 1] == logs[..i] + [logs[i]];
      ghost var before := ToTransfers(logs[..i]);
      ToTransfersSnoc(logs[..i], logs[i]);
      if IsTransfer(logs[i]) {
        var t := ToTransfer(logs[i]);
        ReplaySnoc(before, t, cluster, sinks);
        x := ReplayTransfer(x, cluster, sinks, t);
      } else {
        assert before + [] == before;
      }
    }
    assert logs[..|logs|] == logs;
  }

  /** The totals measure every transfer of the token. */
  ghost predicate TrueTotals(x: Totals, chain: seq<Log>, token: Address, wallets: seq<Address>,
                             sinks: set<Address>, from: int, until: int) {
    Measures(x, ToTransfers(AllTransfers(chain, token, from, until)), wallets, sinks)
  }

  /** The cluster held something, and what it sold to the pool less what it bought is at least half its peak. */
  ghost predicate NetSoldHalf(ts: seq<Transfer>, wallets: seq<Address>, sinks: set<Address>) {
    && PeakHoldings(ts, wallets) > 0
    && 2 * (Flow(ts, AsSet(wallets), sinks) - Flow(ts, sinks, AsSet(wallets))) >= PeakHoldings(ts, wallets)
  }

  /**
   * The verdict is whether half the peak was net-sold to the pool, over the transfers whose logs
   * name a cluster wallet; and over every transfer of the token, unless the token hides one that
   * is not between two cluster wallets.
   */
  method ResolveInsiderExit(chain: seq<Log>, token: Address, clusterWallets: seq<Address>, sinks: set<Address>,
                            fromBlock: nat, toBlock: nat, maxRange: int)
    returns (r: Result<Resolution>)
    requires IsChain(chain)
    ensures clusterWallets == [] ==> r == Ok(Unresolvable)
    ensures clusterWallets != [] ==> (r.Ok? <==> maxRange >= 1)
    ensures r.Ok? && r.value.Resolved? ==>
      var all := AllTransfers(chain, token, fromBlock, toBlock);
      var wallets := Distinct(clusterWallets);
      && Measures(r.value.totals, ToTransfers(ClusterLogs(all, AsSet(wallets))), wallets, sinks)
      && (r.value.exit <==> NetSoldHalf(ToTransfers(ClusterLogs(all, AsSet(wallets))), wallets, sinks))
      && (HiddenAreInward(all, AsSet(wallets), sinks) ==>
            && TrueTotals(r.value.totals, chain, token, wallets, sinks, fromBlock, toBlock)
            && (r.value.exit <==> NetSoldHalf(ToTransfers(all), wallets, sinks)))
    ensures r.Ok? && clusterWallets != [] ==>
      (r.value.Resolved? <==>
        && |Query(chain, ValueFilter([token], TRANSFER, 1, Distinct(clusterWallets)), fromBlock, toBlock)| < 30_000
        && |Query(chain, ValueFilter([token], TRANSFER, 2, Distinct(clusterWallets)), fromBlock, toBlock)| < 30_000)
  {
    var wallets := Distinct(clusterWallets);
    DistinctEmpty(clusterWallets);
    if |wallets| == 0 {
      return Ok(Unresolvable);
    }
    var outLogs := GetLogsByTopicValues(chain, [token], TRANSFER, 1, wallets, fromBlock, toBlock, maxRange, 4);
    var inLogs := GetLogsByTopicValues(chain, [token], TRANSFER, 2, wallets, fromBlock, toBlock, maxRange, 4);
    if outLogs.Err? || inLogs.Err? {
      return Err("maxRange must be >= 1");
    }
    if |outLogs.value| >= MAX_INSIDER_LOGS || |inLogs.value| >= MAX_INSIDER_LOGS {
      return Ok(Unresolvable);
    }
    var totals := ReplayFetched(chain, token, wallets, sinks, fromBlock, toBlock, outLogs.value, inLogs.value);
    r := Ok(Resolved(totals.peak != 0 && (totals.sold - totals.bought) * 2 >= totals.peak, totals));
  }

  lemma DistinctEmpty(wallets: seq<Address>)
    ensures Distinct(wallets) == [] <==> wallets == []
  {
    if wallets != [] {
      assert wallets[0] in Distinct(wallets);
    }
  }

  /** De-duplicate the two fetches, sort, and replay. */
  method ReplayFetched(chain: seq<Log>, token: Address, wallets: seq<Address>, sinks: set<Address>, from: nat, until: nat,
                       outLogs: seq<Log>, inLogs: seq<Log>)
    returns (x: Totals)
    requires IsChain(chain) && NoRepeats(wallets)
    requires outLogs == Query(chain, ValueFilter([token], TRANSFER, 1, wallets), from, until)
    requires inLogs == Query(chain, ValueFilter([token], TRANSFER, 2, wallets), from, until)
    ensures var all := AllTransfers(chain, token, from, until);
            && x == Replay(ToTransfers(ClusterLogs(all, AsSet(wallets))), AsSet(wallets), sinks)
            && Measures(x, ToTransfers(ClusterLogs(all, AsSet(wallets))), wallets, sinks) && x.peak >= 0
            && (HiddenAreInward(all, AsSet(wallets), sinks) ==> TrueTotals(x, chain, token, wallets, sinks, from, until))
  {
    ghost var all := AllTransfers(chain, token, from, until);
    forall l | l in outLogs || l in inLogs || l in all ensures l in chain {
      QueryMembers(chain, ValueFilter([token], TRANSFER, 1, wallets), from, until, l);
      QueryMembers(chain, ValueFilter([token], TRANSFER, 2, wallets), from, until, l);
      QueryMembers(chain, Filter([token], [OneOf([TRANSFER])]), from, until, l);
    }
    var events, seen := MergeNew(chain, outLogs, [], {});
    events, seen := MergeNew(chain, inLogs, events, seen);
    FetchedAreClusterLogs(chain, token, wallets, from, until, events);
    if HiddenAreInward(all, AsSet(wallets), sinks) {
      InwardHidesNothing(all, AsSet(wallets), sinks);
    }
    ReplayMeasures(ToTransfers(all), wallets, sinks);
    ReplayMeasures(ToTransfers(ClusterLogs(all, AsSet(wallets))), wallets, sinks);
    x := ReplayLogs(SortBy(KeyLe, events), AsSet(wallets), sinks);
  }

  // ----- transfers inside the cluster

  predicate Internal(cluster: set<Address>, t: Transfer) {
    t.from in cluster && t.to in cluster
  }

  function External(ts: seq<Transfer>, cluster: set<Address>): (r: seq<Transfer>) {
    if ts == [] then []
    else External(ts[..|ts| - 1], cluster) + (if Internal(cluster, ts[|ts| - 1]) then [] else [ts[|ts| - 1]])
  }

  /** The pool is wholly outside the cluster, or the cluster wholly inside the pool. */
  ghost predicate PoolApart(cluster: set<Address>, sinks: set<Address>) {
    cluster !! sinks || cluster <= sinks
  }

  lemma {:induction false} InternalMovesNothing(ts: seq<Transfer>, cluster: set<Address>,
        sinks: set<Address>)
    requires PoolApart(cluster, sinks)
    ensures var x, y := Replay(ts, cluster, sinks), Replay(External(ts, cluster), cluster, sinks);
            x.agg == y.agg && x.peak == y.peak && x.sold - x.bought == y.sold - y.bought && x.agg <= x.peak
  {
    if ts != [] {
      var n := |ts| - 1;
      InternalMovesNothing(ts[..n], cluster, sinks);
      var before := External(ts[..n], cluster);
      if Internal(cluster, ts[n]) {
        assert External(ts, cluster) == before;
        assert ts[n].from in sinks <==> ts[n].to in sinks;
      } else {
        assert External(ts, cluster) == before + [ts[n]];
        ReplaySnoc(before, ts[n], cluster, sinks);
      }
    }
  }

  lemma {:induction false} FreshAddress(s: set<Address>) returns (x: Address)
    ensures x !in s && forall a :: a in s ==> a < x
    decreases |s|
  {
    if s == {} {
      x := 0;
    } else {
      var a :| a in s;
      var y := FreshAddress(s - {a});
      x := Max(y, a + 1);
      forall b | b in s ensures b < x {
        if b != a {
          assert b in s - {a};
        }
      }
    }
  }

  ghost predicate InternalNeverMatters(cluster: set<Address>, sinks: set<Address>) {
    forall ts: seq<Transfer> ::
      ExitVerdict(Replay(External(ts, cluster), cluster, sinks)) <==> ExitVerdict(Replay(ts, cluster, sinks))
  }

  /** A cluster wallet selling to a pool address that counts as one of its own changes the verdict. */
  lemma InternalSaleMatters(cluster: set<Address>, sinks: set<Address>, w: Address,
                            p: Address) returns (ts: seq<Transfer>)
    requires w in cluster && w !in sinks && p in cluster && p in sinks
    ensures ExitVerdict(Replay(ts, cluster, sinks)) && !ExitVerdict(Replay(External(ts, cluster), cluster, sinks))
  {
    var x := FreshAddress(cluster + sinks);
    assert x !in cluster && x !in sinks;
    var buy, sale := Transfer(x, w, 1), Transfer(w, p, 1);
    ts := [buy, sale];
    assert [buy][..0] == [];
    assert Replay([], cluster, sinks) == Totals(0, 0, 0, 0);
    assert Replay([buy], cluster, sinks) == Totals(1, 1, 0, 0);
    assert ts[..1] == [buy];
    assert Replay(ts, cluster, sinks) == Totals(1, 1, 1, 0);
    assert External([], cluster) == [];
    assert External([buy], cluster) == [] + [buy];
    assert External(ts, cluster) == [buy];
  }

  /** Transfers inside the cluster never change the verdict, exactly when the pool does not straddle it. */
  lemma InternalNeverMattersIff(cluster: set<Address>, sinks: set<Address>)
    ensures InternalNeverMatters(cluster, sinks) <==> PoolApart(cluster, sinks)
  {
    if PoolApart(cluster, sinks) {
      forall ts: seq<Transfer>
        ensures ExitVerdict(Replay(External(ts, cluster), cluster, sinks)) <==> ExitVerdict(Replay(ts, cluster, sinks))
      {
        InternalMovesNothing(ts, cluster, sinks);
      }
    } else {
      var p :| p in cluster && p in sinks;
      var w :| w in cluster && w !in sinks;
      var ts := InternalSaleMatters(cluster, sinks, w, p);
    }
  }
}
