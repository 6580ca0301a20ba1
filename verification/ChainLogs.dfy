/** Fetching event logs in bounded block windows and bounded topic batches. */
module ChainLogs {
  import opened Common
  import opened Sorting

  type Address = nat

  datatype Log = Log(address: Address, topics: seq<nat>, data: nat, block: nat, index: nat)

  /** One topic position of a filter: anything, or one of some values. */
  datatype Slot = Anything | OneOf(values: seq<nat>)

  /** A log filter; no address means any. */
  datatype Filter = Filter(addresses: seq<Address>, slots: seq<Slot>)

  predicate SlotMatches(s: Slot, topic: nat) {
    s.Anything? || topic in s.values
  }

  predicate Matches(f: Filter, l: Log) {
    && (f.addresses == [] || l.address in f.addresses)
    && |f.slots| <= |l.topics|
    && forall k :: 0 <= k < |f.slots| ==> SlotMatches(f.slots[k], l.topics[k])
  }

  /** Chain order. */
  predicate KeyLe(a: Log, b: Log) {
    a.block < b.block || (a.block == b.block && a.index <= b.index)
  }

  predicate SameKey(a: Log, b: Log) {
    a.block == b.block && a.index == b.index
  }

  /** The chain lists its logs in order, each position once. */
  ghost predicate IsChain(chain: seq<Log>) {
    forall i, j :: 0 <= i < j < |chain| ==> KeyLe(chain[i], chain[j]) && !SameKey(chain[i], chain[j])
  }

  predicate Wanted(f: Filter, from: int, until: int, l: Log) {
    from <= l.block <= until && Matches(f, l)
  }

  /** One unrestricted query: the matching logs of a block range, in chain order. */
  function Query(chain: seq<Log>, f: Filter, from: int, until: int): (r: seq<Log>) {
    if chain == [] then []
    else
      var n := |chain| - 1;
      Query(chain[..n], f, from, until) + (if Wanted(f, from, until, chain[n]) then [chain[n]] else [])
  }

  lemma {:induction false} QueryMembers(chain: seq<Log>, f: Filter, from: int, until: int,
                                        l: Log)
    ensures l in Query(chain, f, from, until) <==> l in chain && Wanted(f, from, until, l)
  {
    if chain != [] {
      var n := |chain| - 1;
      assert chain == chain[..n] + [chain[n]];
      QueryMembers(chain[..n], f, from, until, l);
    }
  }

  // ----- windows

  /** Adjacent windows of a chain in order concatenate. */
  lemma {:induction false} QuerySplit(chain: seq<Log>, f: Filter, from: int, mid: int,
                                      until: int)
    requires IsChain(chain) && from - 1 <= mid <= until
    ensures Query(chain, f, from, mid) + Query(chain, f, mid + 1, until) == Query(chain, f, from, until)
  {
    if chain != [] {
      var n := |chain| - 1;
      var l := chain[n];
      QuerySplit(chain[..n], f, from, mid, until);
      if Wanted(f, from, mid, l) {
        forall i | 0 <= i < n ensures chain[i].block <= mid {
          assert KeyLe(chain[i], chain[n]);
        }
        QueryEmpty(chain[..n], f, mid + 1, until);
        assert Query(chain, f, mid + 1, until) == [];
      } else {
        var x, y := Query(chain[..n], f, from, mid), Query(chain[..n], f, mid + 1, until);
        assert Query(chain, f, from, mid) == x;
        assert x + (y + [l]) == (x + y) + [l];
      }
    }
  }

  lemma {:induction false} QueryEmpty(chain: seq<Log>, f: Filter, from: int, until: int)
    requires forall i :: 0 <= i < |chain| ==> !(from <= chain[i].block <= until)
    ensures Query(chain, f, from, until) == []
  {
    if chain != [] {
      QueryEmpty(chain[..|chain| - 1], f, from, until);
    }
  }

  /** Fetching window by window returns exactly the logs of one unrestricted query, in order. */
  method GetLogsChunked(chain: seq<Log>, f: Filter, fromBlock: nat, toBlock: nat,
                        maxRange: int) returns (r: Result<seq<Log>>)
    requires IsChain(chain)
    ensures r.Ok? <==> maxRange >= 1
    ensures r.Ok? ==> r.value == Query(chain, f, fromBlock, toBlock)
  {
    if maxRange < 1 {
      return Err("maxRange must be >= 1");
    }
    var out: seq<Log> := [];
    var start: int := fromBlock;
    ghost var done: int := fromBlock - 1;
    QueryBackwards(chain, f, fromBlock, fromBlock - 1);
    while start <= toBlock
      invariant fromBlock - 1 <= done <= start - 1 && (done == start - 1 || done == toBlock)
      invariant start > toBlock ==> done == toBlock || (start == fromBlock && done == fromBlock - 1)
      invariant out == Query(chain, f, fromBlock, done)
      decreases toBlock + 1 - start
    {
      var end := if start + maxRange - 1 < toBlock then start + maxRange - 1 else toBlock;
      var batch := Query(chain, f, start, end);
      QuerySplit(chain, f, fromBlock, done, end);
      out := out + batch;
      done := end;
      start := start + maxRange;
    }
    if fromBlock > toBlock {
      QueryBackwards(chain, f, fromBlock, toBlock);
    }
    r := Ok(out);
  }

  lemma QueryBackwards(chain: seq<Log>, f: Filter, from: int, until: int)
    requires until < from
    ensures Query(chain, f, from, until) == []
  {
    QueryEmpty(chain, f, from, until);
  }

  // ----- topic batches

  /** The filter for a topic in one indexed position, the positions before it open. */
  function ValueFilter(addresses: seq<Address>, topic0: nat, position: nat,
                       values: seq<nat>): Filter
    requires 1 <= position <= 3
  {
    Filter(addresses, [OneOf([topic0])] + seq(position - 1, _ => Anything) + [OneOf(values)])
  }

  lemma ValueFilterMatches(addresses: seq<Address>, topic0: nat, position: nat,
                           values: seq<nat>, l: Log)
    requires 1 <= position <= 3
    ensures Matches(ValueFilter(addresses, topic0, position, values), l) <==>
      (addresses == [] || l.address in addresses) && |l.topics| > position && l.topics[0] == topic0 && l.topics[position] in values
  {
    var f := ValueFilter(addresses, topic0, position, values);
    assert |f.slots| == position + 1;
    assert f.slots[0] == OneOf([topic0]) && f.slots[position] == OneOf(values);
    if Matches(f, l) {
      assert SlotMatches(f.slots[0], l.topics[0]) && SlotMatches(f.slots[position], l.topics[position]);
    }
    if (addresses == [] || l.address in addresses) && |l.topics| > position && l.topics[0] == topic0 && l.topics[position] in values {
      forall k | 0 <= k < |f.slots| ensures SlotMatches(f.slots[k], l.topics[k]) {
        assert k == 0 || k == position || f.slots[k] == Anything;
      }
    }
  }

  lemma KeyOrder()
    ensures TotalPreorder(KeyLe)
  {
  }

  /** `out` holds each log matching one of the first values once. */
  ghost predicate Collected(chain: seq<Log>, addresses: seq<Address>, topic0: nat, position: nat, values: seq<nat>,
                            from: int, until: int, out: seq<Log>)
    requires 1 <= position <= 3
  {
    && NoRepeats(out)
    && (forall l :: l in out <==> l in Query(chain, ValueFilter(addresses, topic0, position, values), from, until))
  }

  lemma QueryMember(chain: seq<Log>, addresses: seq<Address>, topic0: nat, position: nat,
                    values: seq<nat>, from: int, until: int, l: Log)
    requires 1 <= position <= 3
    ensures l in Query(chain, ValueFilter(addresses, topic0, position, values), from, until) <==>
      l in chain && from <= l.block <= until
      && (addresses == [] || l.address in addresses) && |l.topics| > position && l.topics[0] == topic0 && l.topics[position] in values
  {
    ValueFilterMatches(addresses, topic0, position, values, l);
    QueryMembers(chain, ValueFilter(addresses, topic0, position, values), from, until, l);
  }

  /** Merge a batch's logs, skipping positions already seen. */
  method MergeNew(chain: seq<Log>, logs: seq<Log>, out0: seq<Log>, seen0: set<(nat, nat)>)
    returns (out: seq<Log>, seen: set<(nat, nat)>)
    requires IsChain(chain) && NoRepeats(out0)
    requires forall l :: l in logs || l in out0 ==> l in chain
    requires seen0 == set l | l in out0 :: (l.block, l.index)
    ensures NoRepeats(out) && seen == set l | l in out :: (l.block, l.index)
    ensures forall l :: l in out <==> l in out0 || l in logs
  {
    out, seen := out0, seen0;
    for i := 0 to |logs|
      invariant NoRepeats(out)
      invariant seen == set l | l in out :: (l.block, l.index)
      invariant forall l :: l in out <==> l in out0 || l in logs[..i]
    {
      var l := logs[i];
      assert logs[..i + 1] == logs[..i] + [l];
      if (l.block, l.index) in seen {
        var other :| other in out && other.block == l.block && other.index == l.index;
        SameKeySameLog(chain, other, l);
      } else {
        assert l !in out;
        seen := seen + {(l.block, l.index)};
        out := out + [l];
      }
    }
    assert logs[..|logs|] == logs;
  }

  lemma SameKeySameLog(chain: seq<Log>, a: Log, b: Log)
    requires IsChain(chain) && a in chain && b in chain && SameKey(a, b)
    ensures a == b
  {
    var i :| 0 <= i < |chain| && chain[i] == a;
    var j :| 0 <= j < |chain| && chain[j] == b;
  }

  lemma {:induction false} QueryOrdered(chain: seq<Log>, f: Filter, from: int, until: int)
    requires IsChain(chain)
    ensures SortedBy(KeyLe, Query(chain, f, from, until)) && NoRepeats(Query(chain, f, from, until))
  {
    if chain != [] {
      var n := |chain| - 1;
      QueryOrdered(chain[..n], f, from, until);
      var q := Query(chain[..n], f, from, until);
      forall i | 0 <= i < |q| ensures KeyLe(q[i], chain[n]) && q[i] != chain[n] {
        QueryMembers(chain[..n], f, from, until, q[i]);
        assert q[i] in chain[..n];
        var j :| 0 <= j < n && chain[j] == q[i];
      }
    }
  }

  /** Sorting the collected logs gives exactly the single unrestricted query. */
  lemma SortedCollectionIsQuery(chain: seq<Log>, addresses: seq<Address>, topic0: nat, position: nat, values: seq<nat>,
                                from: int, until: int, out: seq<Log>)
    requires IsChain(chain) && 1 <= position <= 3
    requires Collected(chain, addresses, topic0, position, values, from, until, out)
    ensures SortBy(KeyLe, out) == Query(chain, ValueFilter(addresses, topic0, position, values), from, until)
  {
    var f := ValueFilter(addresses, topic0, position, values);
    var q := Query(chain, f, from, until);
    KeyOrder();
    SortBySorted(KeyLe, out);
    SortKeepsDistinct(KeyLe, out);
    SortByMembers(KeyLe, out);
    QueryOrdered(chain, f, from, until);
    var s := SortBy(KeyLe, out);
    forall x, y | x in s && y in s && KeyLe(x, y) && KeyLe(y, x) ensures x == y {
      QueryMembers(chain, f, from, until, x);
      QueryMembers(chain, f, from, until, y);
      SameKeySameLog(chain, x, y);
    }
    SortedDetermined(KeyLe, s, q);
  }

  /**
   * Fetching topic values in batches, merged, de-duplicated and sorted, returns exactly the logs
   * of one query with all values: each once, in chain order, whatever the chunk size and cap.
   */
  method GetLogsByTopicValues(chain: seq<Log>, addresses: seq<Address>, topic0: nat, position: nat, values: seq<nat>,
                              fromBlock: nat, toBlock: nat, maxRange: int, cap: nat)
    returns (r: Result<seq<Log>>)
    requires IsChain(chain) && 1 <= position <= 3 && cap >= 1
    ensures r.Ok? <==> maxRange >= 1 || values == []
    ensures r.Ok? ==> r.value == Query(chain, ValueFilter(addresses, topic0, position, values), fromBlock, toBlock)
  {
    var out: seq<Log> := [];
    var seen: set<(nat, nat)> := {};
    var i := 0;
    NothingCollected(chain, addresses, topic0, position, fromBlock, toBlock);
    while i < |values|
      invariant 0 <= i && (i > 0 ==> maxRange >= 1)
      invariant seen == set l | l in out :: (l.block, l.index)
      invariant Collected(chain, addresses, topic0, position, values[..Min(i, |values|)], fromBlock, toBlock, out)
      decreases |values| - i
    {
      var end := Min(i + cap, |values|);
      var batch := values[i..end];
      var logs := GetLogsChunked(chain, ValueFilter(addresses, topic0, position, batch), fromBlock, toBlock, maxRange);
      if logs.Err? {
        return Err(logs.error);
      }
      ghost var out0 := out;
      AllFromChain(chain, addresses, topic0, position, values[..i], batch, fromBlock, toBlock, out, logs.value);
      out, seen := MergeNew(chain, logs.value, out, seen);
      BatchCollected(chain, addresses, topic0, position, values, i, end, fromBlock, toBlock, out0, out);
      i := i + cap;
    }
    assert values[..Min(i, |values|)] == values;
    SortedCollectionIsQuery(chain, addresses, topic0, position, values, fromBlock, toBlock, out);
    r := Ok(SortBy(KeyLe, out));
  }

  lemma AllFromChain(chain: seq<Log>, addresses: seq<Address>, topic0: nat, position: nat, before: seq<nat>, batch: seq<nat>,
                     from: int, until: int, out: seq<Log>, logs: seq<Log>)
    requires 1 <= position <= 3
    requires Collected(chain, addresses, topic0, position, before, from, until, out)
    requires logs == Query(chain, ValueFilter(addresses, topic0, position, batch), from, until)
    ensures forall l :: l in logs || l in out ==> l in chain
  {
    forall l | l in logs || l in out ensures l in chain {
      QueryMembers(chain, ValueFilter(addresses, topic0, position, batch), from, until, l);
      QueryMembers(chain, ValueFilter(addresses, topic0, position, before), from, until, l);
    }
  }

  lemma NothingCollected(chain: seq<Log>, addresses: seq<Address>, topic0: nat, position: nat,
                         from: int, until: int)
    requires 1 <= position <= 3
    ensures Collected(chain, addresses, topic0, position, [], from, until, [])
  {
    forall l ensures l !in Query(chain, ValueFilter(addresses, topic0, position, []), from, until) {
      QueryMember(chain, addresses, topic0, position, [], from, until, l);
    }
  }

  lemma BatchCollected(chain: seq<Log>, addresses: seq<Address>, topic0: nat, position: nat, values: seq<nat>, i: nat, end: nat,
                       from: int, until: int, out0: seq<Log>, out: seq<Log>)
    requires 1 <= position <= 3 && i <= end <= |values| && NoRepeats(out)
    requires Collected(chain, addresses, topic0, position, values[..i], from, until, out0)
    requires forall l :: l in out <==> l in out0 || l in Query(chain, ValueFilter(addresses, topic0, position, values[i..end]), from, until)
    ensures Collected(chain, addresses, topic0, position, values[..end], from, until, out)
  {
    assert values[..end] == values[..i] + values[i..end];
    forall l ensures l in out <==> l in Query(chain, ValueFilter(addresses, topic0, position, values[..end]), from, until) {
      QueryMember(chain, addresses, topic0, position, values[..i], from, until, l);
      QueryMember(chain, addresses, topic0, position, values[i..end], from, until, l);
      QueryMember(chain, addresses, topic0, position, values[..end], from, until, l);
    }
  }
}
