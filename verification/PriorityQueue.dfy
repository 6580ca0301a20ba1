/** The stable priority queue in front of the RPC endpoint: lowest number first, FIFO within a number. */
module PriorityQueues {
  import opened Common

  datatype Entry<T> = Entry(priority: int, seqNo: nat, value: T)

  /** `a` leaves the queue before `b`. */
  predicate Before<T>(a: Entry<T>, b: Entry<T>) {
    a.priority < b.priority || (a.priority == b.priority && a.seqNo < b.seqNo)
  }

  ghost predicate Ordered<T>(items: seq<Entry<T>>) {
    forall i, j :: 0 <= i < j < |items| ==> Before(items[i], items[j])
  }

  ghost predicate Numbered<T>(items: seq<Entry<T>>, next: nat) {
    forall i :: 0 <= i < |items| ==> items[i].seqNo < next
  }

  /** The queue after an arrival: behind every entry of no greater priority number. */
  function Arrive<T>(items: seq<Entry<T>>, e: Entry<T>): (r: seq<Entry<T>>)
    ensures |r| == |items| + 1
  {
    if items == [] || items[|items| - 1].priority <= e.priority then items + [e]
    else Arrive(items[..|items| - 1], e) + [items[|items| - 1]]
  }

  lemma {:induction false} ArriveAdds<T>(items: seq<Entry<T>>, e: Entry<T>)
    ensures multiset(Arrive(items, e)) == multiset(items) + multiset{e}
  {
    if items != [] && items[|items| - 1].priority > e.priority {
      var n := |items| - 1;
      ArriveAdds(items[..n], e);
      assert items == items[..n] + [items[n]];
    }
  }

  /** An arrival numbered after all others keeps the queue in order. */
  lemma {:induction false} ArriveOrdered<T>(items: seq<Entry<T>>, e: Entry<T>)
    requires Ordered(items) && Numbered(items, e.seqNo)
    ensures Ordered(Arrive(items, e)) && Numbered(Arrive(items, e), e.seqNo + 1)
  {
    if items == [] {
    } else if items[|items| - 1].priority <= e.priority {
      var n := |items| - 1;
      forall i | 0 <= i < |items| ensures Before(items[i], e) {
        assert i == n || Before(items[i], items[n]);
      }
    } else {
      var n := |items| - 1;
      ArriveOrdered(items[..n], e);
      var front := Arrive(items[..n], e);
      ArriveAdds(items[..n], e);
      forall i | 0 <= i < |front| ensures Before(front[i], items[n]) {
        assert front[i] in multiset(front);
        assert front[i] in items[..n] || front[i] == e;
      }
    }
  }

  /** The position found by walking left is where the arrival belongs. */
  lemma {:induction false} ArriveAt<T>(items: seq<Entry<T>>, e: Entry<T>, i: nat)
    requires i <= |items|
    requires i > 0 ==> items[i - 1].priority <= e.priority
    requires forall k :: i <= k < |items| ==> items[k].priority > e.priority
    ensures Arrive(items, e) == items[..i] + [e] + items[i..]
  {
    var n := |items|;
    if i == n {
      assert items[..i] == items && items[i..] == [];
    } else {
      var m, last := items[..n - 1], items[n - 1];
      ArriveAt(m, e, i);
      assert Arrive(items, e) == Arrive(m, e) + [last];
      assert m[..i] == items[..i] && items[i..] == m[i..] + [last];
    }
  }

  class PriorityQueue<T> {
    var items: seq<Entry<T>>
    var nextSeq: nat

    ghost predicate Valid()
      reads this
    {
      Ordered(items) && Numbered(items, nextSeq)
    }

    constructor ()
      ensures Valid() && items == [] && nextSeq == 0
    {
      items, nextSeq := [], 0;
    }

    method Push(priority: int, value: T)
      requires Valid()
      modifies this
      ensures Valid()
      ensures items == Arrive(old(items), Entry(priority, old(nextSeq), value))
      ensures nextSeq == old(nextSeq) + 1
    {
      var entry := Entry(priority, nextSeq, value);
      nextSeq := nextSeq + 1;
      var i := |items|;
      while i > 0
        invariant 0 <= i <= |items|
        invariant forall k :: i <= k < |items| ==> items[k].priority > priority
      {
        if items[i - 1].priority <= priority {
          break;
        }
        i := i - 1;
      }
      ArriveAt(items, entry, i);
      ArriveOrdered(items, entry);
      items := items[..i] + [entry] + items[i..];
    }

    /** The entry that leaves is the earliest arrival of the lowest priority number waiting. */
    method Shift() returns (r: Option<T>)
      requires Valid()
      modifies this
      ensures Valid() && nextSeq == old(nextSeq)
      ensures old(items) == [] ==> r == None && items == []
      ensures old(items) != [] ==>
        && r == Some(old(items)[0].value) && items == old(items)[1..]
        && (forall k :: 0 < k < |old(items)| ==> Before(old(items)[0], old(items)[k]))
    {
      if |items| == 0 {
        return None;
      }
      r := Some(items[0].value);
      items := items[1..];
    }
  }
}
