/**
 * The sorted-pair Merkle tree over report hashes: how the worker builds it and threads every
 * leaf's siblings, and what a folded proof shows.
 *
 * `keccak` stands for keccak256 of two concatenated hex strings. Assumptions about it are stated
 * only for the pairs a statement actually hashes.
 */
module Merkle {
  import opened Common
  import opened Sorting

  datatype Hex = Hex(text: string)

  type PairHash = (Hex, Hex) -> Hex

  // ----- hex strings: case and order

  /** A capital letter becomes the small one in its place of the alphabet. */
  function LowerChar(c: char): (r: char)
    ensures 'A' <= c <= 'Z' ==> r as int - 'a' as int == c as int - 'A' as int
    ensures !('A' <= c <= 'Z') ==> r == c
  {
    if 'A' <= c <= 'Z' then (c as int + 32) as char else c
  }

  function Lower(s: Hex): Hex {
    Hex(seq(|s.text|, i requires 0 <= i < |s.text| => LowerChar(s.text[i])))
  }

  lemma LowerTwice(s: Hex)
    ensures Lower(Lower(s)) == Lower(s)
  {
    assert Lower(Lower(s)).text == Lower(s).text;
  }

  /** Code-unit order of strings. */
  predicate TextLe(a: string, b: string) {
    a == [] || (b != [] && (a[0] < b[0] || (a[0] == b[0] && TextLe(a[1..], b[1..]))))
  }

  predicate LexLe(a: Hex, b: Hex) {
    TextLe(a.text, b.text)
  }

  /** A prefix, or smaller at the first place where they differ. */
  ghost predicate NoLater(a: string, b: string) {
    a <= b || exists k :: 0 <= k < |a| && k < |b| && a[..k] == b[..k] && a[k] < b[k]
  }

  /** The same first character decides nothing. */
  lemma SameStart(c: char, s: string, t: string)
    ensures NoLater([c] + s, [c] + t) <==> NoLater(s, t)
  {
    var a, b := [c] + s, [c] + t;
    assert a[1..] == s && b[1..] == t;
    if k :| 0 <= k < |s| && k < |t| && s[..k] == t[..k] && s[k] < t[k] {
      assert a[..k + 1] == [c] + s[..k] && b[..k + 1] == [c] + t[..k];
    }
    if k :| 0 <= k < |a| && k < |b| && a[..k] == b[..k] && a[k] < b[k] {
      assert s[..k - 1] == a[..k][1..] && t[..k - 1] == b[..k][1..];
    }
  }

  lemma {:induction false} TextLeIff(a: string, b: string)
    ensures TextLe(a, b) <==> NoLater(a, b)
  {
    if a != [] && b != [] {
      if a[0] == b[0] {
        TextLeIff(a[1..], b[1..]);
        SameStart(a[0], a[1..], b[1..]);
        assert a == [a[0]] + a[1..] && b == [b[0]] + b[1..];
      } else {
        assert a[..0] == b[..0];
        assert forall k :: 0 < k < |a| && k < |b| ==> a[..k][0] != b[..k][0];
      }
    }
  }

  lemma {:induction false} TextTotal(a: string, b: string)
    ensures TextLe(a, b) || TextLe(b, a)
    ensures TextLe(a, b) && TextLe(b, a) ==> a == b
  {
    if a != [] && b != [] && a[0] == b[0] {
      TextTotal(a[1..], b[1..]);
      assert a == [a[0]] + a[1..] && b == [b[0]] + b[1..];
    }
  }

  lemma LexTotal(a: Hex, b: Hex)
    ensures LexLe(a, b) || LexLe(b, a)
    ensures LexLe(a, b) && LexLe(b, a) ==> a == b
  {
    TextTotal(a.text, b.text);
  }

  lemma {:induction false} TextTransitive(a: string, b: string, c: string)
    requires TextLe(a, b) && TextLe(b, c)
    ensures TextLe(a, c)
  {
    if a != [] && a[0] == b[0] == c[0] {
      TextTransitive(a[1..], b[1..], c[1..]);
    }
  }

  lemma LexIsOrder()
    ensures TotalPreorder(LexLe)
  {
    forall a, b ensures LexLe(a, b) || LexLe(b, a) {
      LexTotal(a, b);
    }
    forall a, b, c | LexLe(a, b) && LexLe(b, c) ensures LexLe(a, c) {
      TextTransitive(a.text, b.text, c.text);
    }
  }

  // ----- hashing a pair

  /** The pair as it is concatenated: the lower string first, ignoring case. */
  function Arrange(a: Hex, b: Hex): (Hex, Hex) {
    if LexLe(Lower(a), Lower(b)) then (a, b) else (b, a)
  }

  function HashPair(keccak: PairHash, a: Hex, b: Hex): Hex {
    keccak(Arrange(a, b).0, Arrange(a, b).1)
  }

  /** A pair is hashed with the string first that is no later than the other once both are lowered. */
  lemma PairInOrder(keccak: PairHash, a: Hex, b: Hex) returns (first: Hex, second: Hex)
    ensures HashPair(keccak, a, b) == keccak(first, second)
    ensures multiset{first, second} == multiset{a, b} && NoLater(Lower(first).text, Lower(second).text)
  {
    first, second := Arrange(a, b).0, Arrange(a, b).1;
    LexTotal(Lower(a), Lower(b));
    TextLeIff(Lower(first).text, Lower(second).text);
  }

  /** Digests are printed in lower case. */
  ghost predicate LowercaseDigests(keccak: PairHash) {
    forall a, b :: Lower(keccak(a, b)) == keccak(a, b)
  }

  ghost predicate AllLower(s: seq<Hex>) {
    forall i :: 0 <= i < |s| ==> Lower(s[i]) == s[i]
  }

  lemma HashPairCommutes(keccak: PairHash, a: Hex, b: Hex)
    requires Lower(a) == a && Lower(b) == b
    ensures HashPair(keccak, a, b) == HashPair(keccak, b, a)
  {
    LexTotal(a, b);
  }

  /** Fold a proof's siblings into a running hash. */
  function Fold(keccak: PairHash, start: Hex, proof: seq<Hex>): Hex {
    if proof == [] then start
    else HashPair(keccak, Fold(keccak, start, proof[..|proof| - 1]), proof[|proof| - 1])
  }

  /** What checking a proof means, whoever checks it. */
  predicate Verifies(keccak: PairHash, leaf: Hex, proof: seq<Hex>, root: Hex) {
    Lower(Fold(keccak, Lower(leaf), proof)) == Lower(root)
  }

  // ----- the leaves: lowered, without repeats, sorted

  function Lowered(leaves: seq<Hex>): (r: seq<Hex>)
    ensures |r| == |leaves|
  {
    seq(|leaves|, i requires 0 <= i < |leaves| => Lower(leaves[i]))
  }

  function Canonical(leaves: seq<Hex>): (r: seq<Hex>) {
    SortBy(LexLe, Distinct(Lowered(leaves)))
  }

  ghost predicate StrictlySorted(s: seq<Hex>) {
    SortedBy(LexLe, s) && NoRepeats(s)
  }

  lemma CanonicalLeaves(leaves: seq<Hex>)
    ensures StrictlySorted(Canonical(leaves)) && AllLower(Canonical(leaves))
    ensures forall x :: x in Canonical(leaves) <==> x in Lowered(leaves)
    ensures leaves != [] ==> Canonical(leaves) != []
    ensures |Canonical(leaves)| <= |leaves|
  {
    var low := Lowered(leaves);
    LexIsOrder();
    SortBySorted(LexLe, Distinct(low));
    SortKeepsDistinct(LexLe, Distinct(low));
    SortByMembers(LexLe, Distinct(low));
    var c := Canonical(leaves);
    forall i | 0 <= i < |c| ensures Lower(c[i]) == c[i] {
      assert c[i] in low;
      var j :| 0 <= j < |low| && low[j] == c[i];
      LowerTwice(leaves[j]);
    }
    if leaves != [] {
      assert low[0] in c;
    }
  }

  /** Canonical leaf lists with the same elements are the same list. */
  lemma SameLeaves(a: seq<Hex>, b: seq<Hex>)
    requires StrictlySorted(a) && StrictlySorted(b)
    requires forall x :: x in a <==> x in b
    ensures a == b
  {
    forall x, y | LexLe(x, y) && LexLe(y, x) ensures x == y {
      LexTotal(x, y);
    }
    SortedDetermined(LexLe, a, b);
  }

  // ----- levels and the root

  /** The next level: adjacent nodes hashed in pairs, an odd last node promoted. */
  function Up(keccak: PairHash, level: seq<Hex>): (r: seq<Hex>)
    ensures |r| == (|level| + 1) / 2
  {
    if |level| <= 1 then level
    else [HashPair(keccak, level[0], level[1])] + Up(keccak, level[2..])
  }

  function Root(keccak: PairHash, level: seq<Hex>): Hex
    requires level != []
    decreases |level|
  {
    if |level| == 1 then level[0] else Root(keccak, Up(keccak, level))
  }

  /** `next` hashes the nodes of `level` two by two, and carries an odd last one over. */
  ghost predicate NextLevel(keccak: PairHash, level: seq<Hex>, next: seq<Hex>) {
    && |level| <= 2 * |next| <= |level| + 1
    && forall i :: 0 <= i < |next| ==>
         next[i] == if 2 * i + 1 < |level| then HashPair(keccak, level[2 * i], level[2 * i + 1]) else level[2 * i]
  }

  /** Level upon level, from the leaves to the root alone. */
  ghost predicate IsTree(keccak: PairHash, levels: seq<seq<Hex>>, leaves: seq<Hex>, root: Hex) {
    && levels != [] && levels[0] == leaves && levels[|levels| - 1] == [root]
    && forall k :: 0 <= k < |levels| - 1 ==> |levels[k]| > 1 && NextLevel(keccak, levels[k], levels[k + 1])
  }

  lemma {:induction false} UpIsNextLevel(keccak: PairHash, level: seq<Hex>)
    ensures NextLevel(keccak, level, Up(keccak, level))
  {
    if |level| > 1 {
      UpIsNextLevel(keccak, level[2..]);
      var next, rest := Up(keccak, level), Up(keccak, level[2..]);
      forall i | 0 <= i < |next|
        ensures next[i] == if 2 * i + 1 < |level| then HashPair(keccak, level[2 * i], level[2 * i + 1]) else level[2 * i]
      {
        if i > 0 {
          assert next[i] == rest[i - 1];
        }
      }
    }
  }

  /** The root is what is left when the leaves are hashed in pairs, level upon level. */
  lemma {:induction false} RootIsTree(keccak: PairHash, leaves: seq<Hex>) returns (levels: seq<seq<Hex>>)
    requires leaves != []
    ensures IsTree(keccak, levels, leaves, Root(keccak, leaves))
    decreases |leaves|
  {
    if |leaves| == 1 {
      levels := [leaves];
    } else {
      UpIsNextLevel(keccak, leaves);
      var upper := RootIsTree(keccak, Up(keccak, leaves));
      levels := [leaves] + upper;
      assert forall k :: 0 < k < |levels| ==> levels[k] == upper[k - 1];
    }
  }

  function CeilLog2(n: nat): nat {
    if n <= 1 then 0 else 1 + CeilLog2((n + 1) / 2)
  }

  /** `CeilLog2` is the least exponent whose power of two reaches `n`. */
  lemma {:induction false} CeilLog2Least(n: nat, e: nat)
    requires n >= 1
    ensures Pow2(CeilLog2(n)) >= n
    ensures Pow2(e) >= n ==> CeilLog2(n) <= e
  {
    if n > 1 {
      CeilLog2Least((n + 1) / 2, if e == 0 then 0 else e - 1);
    }
  }

  // ----- building the tree

  datatype MerkleTree = MerkleTree(root: Hex, leafCount: nat, leaves: seq<Hex>, proofs: map<Hex, seq<Hex>>)

  function Flatten(groups: seq<seq<Hex>>): (r: seq<Hex>) {
    if groups == [] then [] else groups[0] + Flatten(groups[1..])
  }

  lemma {:induction false} FlattenConcat(a: seq<seq<Hex>>, b: seq<seq<Hex>>)
    ensures Flatten(a + b) == Flatten(a) + Flatten(b)
  {
    if a == [] {
      assert a + b == b;
    } else {
      assert (a + b)[1..] == a[1..] + b;
      FlattenConcat(a[1..], b);
    }
  }

  /** Every proof of the group leads to `node` in at most `bound` steps. */
  ghost predicate GroupReaches(keccak: PairHash, proofs: map<Hex, seq<Hex>>, group: seq<Hex>,
                               node: Hex, bound: nat) {
    forall leaf :: leaf in group ==>
      leaf in proofs && Fold(keccak, leaf, proofs[leaf]) == node && |proofs[leaf]| <= bound
  }

  /** Every leaf's proof so far leads to the node its group sits under. */
  ghost predicate ProofsReach(keccak: PairHash, proofs: map<Hex, seq<Hex>>,
                              groups: seq<seq<Hex>>, nodes: seq<Hex>, bound: nat) {
    && |groups| == |nodes|
    && forall g :: 0 <= g < |groups| ==> GroupReaches(keccak, proofs, groups[g], nodes[g], bound)
  }

  /** The groups split the distinct leaves among the nodes. */
  ghost predicate Partition(groups: seq<seq<Hex>>, leaves: seq<Hex>) {
    && Flatten(groups) == leaves
    && NoRepeats(leaves)
  }

  /** Appending one sibling to the proofs of a group, and to no other proof. */
  ghost predicate Pushed(before: map<Hex, seq<Hex>>, after: map<Hex, seq<Hex>>, group: seq<Hex>,
                         sibling: Hex) {
    && after.Keys == before.Keys
    && forall leaf :: leaf in before ==>
         after[leaf] == if leaf in group then before[leaf] + [sibling] else before[leaf]
  }

  method PushSibling(proofs: map<Hex, seq<Hex>>, group: seq<Hex>,
                     sibling: Hex) returns (r: map<Hex, seq<Hex>>)
    requires forall leaf :: leaf in group ==> leaf in proofs
    requires forall i, j :: 0 <= i < j < |group| ==> group[i] != group[j]
    ensures Pushed(proofs, r, group, sibling)
  {
    r := proofs;
    for i := 0 to |group|
      invariant Pushed(proofs, r, group[..i], sibling)
    {
      assert group[i] !in group[..i];
      assert group[..i + 1] == group[..i] + [group[i]];
      r := r[group[i] := r[group[i]] + [sibling]];
    }
    assert group[..|group|] == group;
  }

  lemma FlattenAround(done: seq<seq<Hex>>, mid: seq<seq<Hex>>, rest: seq<seq<Hex>>)
    ensures Flatten(done + mid + rest) == Flatten(done) + Flatten(mid) + Flatten(rest)
  {
    FlattenConcat(done + mid, rest);
    FlattenConcat(done, mid);
  }

  lemma FlattenSmall(left: seq<Hex>, right: seq<Hex>)
    ensures Flatten([left, right]) == left + right && Flatten([left + right]) == left + right
  {
    assert [left, right][1..] == [right] && [right][1..] == [] && [left + right][1..] == [];
    assert Flatten([right]) == right;
  }

  lemma FlattenSplit(done: seq<seq<Hex>>, left: seq<Hex>, right: seq<Hex>, rest: seq<seq<Hex>>)
    ensures Flatten(done + [left, right] + rest) == Flatten(done) + left + right + Flatten(rest)
    ensures Flatten(done + [left + right] + rest) == Flatten(done) + left + right + Flatten(rest)
  {
    FlattenAround(done, [left, right], rest);
    FlattenAround(done, [left + right], rest);
    FlattenSmall(left, right);
    var d, r := Flatten(done), Flatten(rest);
    assert d + (left + right) + r == d + left + right + r;
  }

  /** Leaves under different nodes differ, and no leaf sits under a node twice. */
  lemma PartitionSeparates(done: seq<seq<Hex>>, left: seq<Hex>, right: seq<Hex>,
                           rest: seq<seq<Hex>>, leaves: seq<Hex>)
    requires Partition(done + [left, right] + rest, leaves)
    ensures forall leaf :: leaf in left ==> leaf !in right && leaf !in Flatten(done) && leaf !in Flatten(rest)
    ensures forall leaf :: leaf in right ==> leaf !in Flatten(done) && leaf !in Flatten(rest)
    ensures forall i, j :: 0 <= i < j < |left| ==> left[i] != left[j]
    ensures forall i, j :: 0 <= i < j < |right| ==> right[i] != right[j]
    ensures Partition(done + [left + right] + rest, leaves)
  {
    FlattenSplit(done, left, right, rest);
    DistinctParts(Flatten(done), left, right, Flatten(rest), leaves);
  }

  lemma DistinctParts(d: seq<Hex>, left: seq<Hex>, right: seq<Hex>, r: seq<Hex>,
                      leaves: seq<Hex>)
    requires leaves == d + left + right + r
    requires forall i, j :: 0 <= i < j < |leaves| ==> leaves[i] != leaves[j]
    ensures forall leaf :: leaf in left ==> leaf !in right && leaf !in d && leaf !in r
    ensures forall leaf :: leaf in right ==> leaf !in d && leaf !in r
    ensures forall i, j :: 0 <= i < j < |left| ==> left[i] != left[j]
    ensures forall i, j :: 0 <= i < j < |right| ==> right[i] != right[j]
  {
    var a, b, c := |d|, |d| + |left|, |d| + |left| + |right|;
    assert forall i :: 0 <= i < |d| ==> d[i] == leaves[i];
    assert forall i :: 0 <= i < |left| ==> left[i] == leaves[a + i];
    assert forall i :: 0 <= i < |right| ==> right[i] == leaves[b + i];
    assert forall i :: 0 <= i < |r| ==> r[i] == leaves[c + i];
  }

  lemma {:induction false} FlattenMember(groups: seq<seq<Hex>>, g: nat, leaf: Hex)
    requires g < |groups| && leaf in groups[g]
    ensures leaf in Flatten(groups)
  {
    if g > 0 {
      FlattenMember(groups[1..], g - 1, leaf);
    }
  }

  /** Proofs that did not change still reach their nodes. */
  lemma UntouchedReach(keccak: PairHash, before: map<Hex, seq<Hex>>, after: map<Hex, seq<Hex>>,
                       groups: seq<seq<Hex>>, nodes: seq<Hex>, bound: nat)
    requires ProofsReach(keccak, before, groups, nodes, bound)
    requires forall leaf :: leaf in Flatten(groups) && leaf in before ==> leaf in after && after[leaf] == before[leaf]
    ensures ProofsReach(keccak, after, groups, nodes, bound)
  {
    forall g | 0 <= g < |groups| ensures GroupReaches(keccak, after, groups[g], nodes[g], bound) {
      assert GroupReaches(keccak, before, groups[g], nodes[g], bound);
      forall leaf | leaf in groups[g]
        ensures leaf in after && Fold(keccak, leaf, after[leaf]) == nodes[g] && |after[leaf]| <= bound
      {
        FlattenMember(groups, g, leaf);
      }
    }
  }

  /** Pushing the sibling onto a group's proofs takes them to the parent. */
  lemma GroupClimbs(keccak: PairHash, before: map<Hex, seq<Hex>>, after: map<Hex, seq<Hex>>,
                    group: seq<Hex>, node: Hex, sibling: Hex, parent: Hex, bound: nat)
    requires GroupReaches(keccak, before, group, node, bound)
    requires forall leaf :: leaf in group && leaf in before ==> leaf in after && after[leaf] == before[leaf] + [sibling]
    requires parent == HashPair(keccak, node, sibling)
    ensures GroupReaches(keccak, after, group, parent, bound + 1)
  {
    forall leaf | leaf in group
      ensures leaf in after && Fold(keccak, leaf, after[leaf]) == parent && |after[leaf]| <= bound + 1
    {
      FoldSnoc(keccak, leaf, before[leaf], sibling);
    }
  }

  /** Joining two neighbouring nodes: each side's proofs gain the other node and reach the parent. */
  lemma JoinReaches(keccak: PairHash, before: map<Hex, seq<Hex>>, mid: map<Hex, seq<Hex>>, after: map<Hex, seq<Hex>>,
                    left: seq<Hex>, right: seq<Hex>, a: Hex, b: Hex, h: Hex, bound: nat)
    requires GroupReaches(keccak, before, left, a, bound) && GroupReaches(keccak, before, right, b, bound)
    requires forall leaf :: leaf in left ==> leaf !in right
    requires Pushed(before, mid, left, b) && Pushed(mid, after, right, a)
    requires h == HashPair(keccak, a, b) == HashPair(keccak, b, a)
    ensures GroupReaches(keccak, after, left + right, h, bound + 1)
  {
    GroupClimbs(keccak, before, after, left, a, b, h, bound);
    GroupClimbs(keccak, before, after, right, b, a, h, bound);
  }

  lemma ReachConcat(keccak: PairHash, proofs: map<Hex, seq<Hex>>, g: seq<seq<Hex>>, n: seq<Hex>,
                    h: seq<seq<Hex>>, m: seq<Hex>, bound: nat)
    requires |g| == |n| && |h| == |m|
    ensures ProofsReach(keccak, proofs, g + h, n + m, bound)
       <==> ProofsReach(keccak, proofs, g, n, bound) && ProofsReach(keccak, proofs, h, m, bound)
  {
    var gh, nm := g + h, n + m;
    if ProofsReach(keccak, proofs, gh, nm, bound) {
      forall i | 0 <= i < |g| ensures GroupReaches(keccak, proofs, g[i], n[i], bound) {
        assert GroupReaches(keccak, proofs, gh[i], nm[i], bound);
      }
      forall i | 0 <= i < |h| ensures GroupReaches(keccak, proofs, h[i], m[i], bound) {
        assert GroupReaches(keccak, proofs, gh[|g| + i], nm[|g| + i], bound);
      }
    }
  }

  lemma ReachOne(keccak: PairHash, proofs: map<Hex, seq<Hex>>, group: seq<Hex>, node: Hex,
                 bound: nat)
    ensures ProofsReach(keccak, proofs, [group], [node], bound) <==> GroupReaches(keccak, proofs, group, node, bound)
  {
    assert [group][0] == group && [node][0] == node;
  }

  lemma FoldSnoc(keccak: PairHash, start: Hex, proof: seq<Hex>, sibling: Hex)
    ensures Fold(keccak, start, proof + [sibling]) == HashPair(keccak, Fold(keccak, start, proof), sibling)
  {
    assert (proof + [sibling])[..|proof|] == proof;
  }

  /** What holds between two levels, `i` nodes into the sweep. */
  ghost predicate SweepState(keccak: PairHash, leaves: seq<Hex>, proofs: map<Hex, seq<Hex>>,
                             level: seq<Hex>, groups: seq<seq<Hex>>, i: nat,
                             nextLevel: seq<Hex>, nextGroups: seq<seq<Hex>>, depth: nat)
  {
    && |groups| == |level| && |nextGroups| == |nextLevel| && i <= |level|
    && AllLower(level) && AllLower(nextLevel)
    && proofs.Keys == (set leaf | leaf in leaves)
    && Partition(nextGroups + groups[i..], leaves)
    && ProofsReach(keccak, proofs, nextGroups, nextLevel, depth + 1)
    && ProofsReach(keccak, proofs, groups[i..], level[i..], depth)
    && nextLevel + Up(keccak, level[i..]) == Up(keccak, level)
  }

  /** The next two nodes of a level become one parent in the level above. */
  lemma JoinUp(keccak: PairHash, level: seq<Hex>, i: nat, nextLevel: seq<Hex>)
    requires i + 1 < |level| && nextLevel + Up(keccak, level[i..]) == Up(keccak, level)
    ensures (nextLevel + [HashPair(keccak, level[i], level[i + 1])]) + Up(keccak, level[i + 2..]) == Up(keccak, level)
  {
    var rest, parent := level[i..], HashPair(keccak, level[i], level[i + 1]);
    assert rest[0] == level[i] && rest[1] == level[i + 1] && rest[2..] == level[i + 2..];
    assert Up(keccak, rest) == [parent] + Up(keccak, level[i + 2..]);
    assert nextLevel + ([parent] + Up(keccak, level[i + 2..])) == (nextLevel + [parent]) + Up(keccak, level[i + 2..]);
  }

  /** Which groups the sibling pushes touch, and that they reach the parent. */
  lemma JoinProofs(keccak: PairHash, leaves: seq<Hex>, proofs: map<Hex, seq<Hex>>, mid: map<Hex, seq<Hex>>, after: map<Hex, seq<Hex>>,
                   done: seq<seq<Hex>>, doneNodes: seq<Hex>, left: seq<Hex>, right: seq<Hex>, a: Hex, b: Hex,
                   rest: seq<seq<Hex>>, restNodes: seq<Hex>, depth: nat)
    requires Partition(done + [left, right] + rest, leaves)
    requires ProofsReach(keccak, proofs, done, doneNodes, depth + 1) && ProofsReach(keccak, proofs, rest, restNodes, depth)
    requires GroupReaches(keccak, proofs, left, a, depth) && GroupReaches(keccak, proofs, right, b, depth)
    requires Pushed(proofs, mid, left, b) && Pushed(mid, after, right, a)
    requires Lower(a) == a && Lower(b) == b
    ensures ProofsReach(keccak, after, done + [left + right], doneNodes + [HashPair(keccak, a, b)], depth + 1)
    ensures ProofsReach(keccak, after, rest, restNodes, depth)
  {
    var parent := HashPair(keccak, a, b);
    PartitionSeparates(done, left, right, rest, leaves);
    HashPairCommutes(keccak, a, b);
    JoinReaches(keccak, proofs, mid, after, left, right, a, b, parent, depth);
    UntouchedReach(keccak, proofs, after, done, doneNodes, depth + 1);
    UntouchedReach(keccak, proofs, after, rest, restNodes, depth);
    ReachOne(keccak, after, left + right, parent, depth + 1);
    ReachConcat(keccak, after, done, doneNodes, [left + right], [parent], depth + 1);
  }

  /** The groups still to be swept, with the next two in front. */
  lemma NextTwo(keccak: PairHash, leaves: seq<Hex>, proofs: map<Hex, seq<Hex>>, level: seq<Hex>, groups: seq<seq<Hex>>, i: nat,
                nextGroups: seq<seq<Hex>>, depth: nat)
    requires i + 1 < |level| == |groups| && Partition(nextGroups + groups[i..], leaves)
    requires ProofsReach(keccak, proofs, groups[i..], level[i..], depth)
    ensures Partition(nextGroups + [groups[i], groups[i + 1]] + groups[i + 2..], leaves)
    ensures GroupReaches(keccak, proofs, groups[i], level[i], depth) && GroupReaches(keccak, proofs, groups[i + 1], level[i + 1], depth)
    ensures ProofsReach(keccak, proofs, groups[i + 2..], level[i + 2..], depth)
  {
    var gs, ns := groups[i..], level[i..];
    assert nextGroups + gs == nextGroups + [groups[i], groups[i + 1]] + groups[i + 2..];
    assert GroupReaches(keccak, proofs, gs[0], ns[0], depth) && GroupReaches(keccak, proofs, gs[1], ns[1], depth);
    var gs2, ns2 := groups[i + 2..], level[i + 2..];
    forall g | 0 <= g < |gs2| ensures GroupReaches(keccak, proofs, gs2[g], ns2[g], depth) {
      assert GroupReaches(keccak, proofs, gs[g + 2], ns[g + 2], depth);
    }
  }

  /** Joining the next two nodes of a level keeps the sweep going. */
  method JoinPair(keccak: PairHash, ghost leaves: seq<Hex>, proofs: map<Hex, seq<Hex>>,
                  level: seq<Hex>, groups: seq<seq<Hex>>, i: nat,
                  ghost nextLevel: seq<Hex>, ghost nextGroups: seq<seq<Hex>>, ghost depth: nat)
    returns (after: map<Hex, seq<Hex>>)
    requires LowercaseDigests(keccak) && i + 1 < |level|
    requires SweepState(keccak, leaves, proofs, level, groups, i, nextLevel, nextGroups, depth)
    ensures SweepState(keccak, leaves, after, level, groups, i + 2, nextLevel + [HashPair(keccak, level[i], level[i + 1])],
                       nextGroups + [groups[i] + groups[i + 1]], depth)
  {
    var left, right, leftGroup, rightGroup := level[i], level[i + 1], groups[i], groups[i + 1];
    NextTwo(keccak, leaves, proofs, level, groups, i, nextGroups, depth);
    PartitionSeparates(nextGroups, leftGroup, rightGroup, groups[i + 2..], leaves);
    var mid := PushSibling(proofs, leftGroup, right);
    after := PushSibling(mid, rightGroup, left);
    JoinProofs(keccak, leaves, proofs, mid, after, nextGroups, nextLevel, leftGroup, rightGroup, left, right,
               groups[i + 2..], level[i + 2..], depth);
    JoinUp(keccak, level, i, nextLevel);
  }

  /** An odd last node moves up unchanged. */
  lemma PromoteLast(keccak: PairHash, leaves: seq<Hex>, proofs: map<Hex, seq<Hex>>,
                    level: seq<Hex>, groups: seq<seq<Hex>>, i: nat,
                    nextLevel: seq<Hex>, nextGroups: seq<seq<Hex>>, depth: nat)
    requires i + 1 == |level|
    requires SweepState(keccak, leaves, proofs, level, groups, i, nextLevel, nextGroups, depth)
    ensures SweepState(keccak, leaves, proofs, level, groups, i + 1, nextLevel + [level[i]], nextGroups + [groups[i]], depth)
  {
    assert groups[i..] == [groups[i]] && level[i..] == [level[i]];
    assert groups[i + 1..] == [] && level[i + 1..] == [];
    assert (nextGroups + [groups[i]]) + [] == nextGroups + [groups[i]];
    ReachOne(keccak, proofs, groups[i], level[i], depth);
    ReachOne(keccak, proofs, groups[i], level[i], depth + 1);
    ReachConcat(keccak, proofs, nextGroups, nextLevel, [groups[i]], [level[i]], depth + 1);
    assert (nextLevel + [level[i]]) + [] == nextLevel + [level[i]];
  }

  /** One pass over a level: siblings pushed, parents hashed, an odd last node promoted. */
  method SweepLevel(keccak: PairHash, ghost leaves: seq<Hex>, level: seq<Hex>, groups: seq<seq<Hex>>,
                    proofs0: map<Hex, seq<Hex>>, ghost depth: nat)
    returns (proofs: map<Hex, seq<Hex>>, nextLevel: seq<Hex>, nextGroups: seq<seq<Hex>>)
    requires LowercaseDigests(keccak)
    requires SweepState(keccak, leaves, proofs0, level, groups, 0, [], [], depth)
    ensures SweepState(keccak, leaves, proofs, level, groups, |level|, nextLevel, nextGroups, depth)
  {
    proofs, nextLevel, nextGroups := proofs0, [], [];
    var i := 0;
    while i < |level|
      invariant i <= |level|
      invariant SweepState(keccak, leaves, proofs, level, groups, i, nextLevel, nextGroups, depth)
    {
      if i + 1 < |level| {
        proofs := JoinPair(keccak, leaves, proofs, level, groups, i, nextLevel, nextGroups, depth);
        nextLevel := nextLevel + [HashPair(keccak, level[i], level[i + 1])];
        nextGroups := nextGroups + [groups[i] + groups[i + 1]];
        i := i + 2;
      } else {
        PromoteLast(keccak, leaves, proofs, level, groups, i, nextLevel, nextGroups, depth);
        nextLevel := nextLevel + [level[i]];
        nextGroups := nextGroups + [groups[i]];
        i := i + 1;
      }
    }
  }

  /**
   * A built tree: the root of the canonical leaves, and for every leaf a proof that folds to
   * that root and is no longer than the tree is high.
   */
  ghost predicate TreeOf(keccak: PairHash, t: MerkleTree, leaves: seq<Hex>) {
    && t.leaves == Canonical(leaves) && t.leaves != []
    && t.leafCount == |t.leaves|
    && t.root == Root(keccak, t.leaves)
    && t.proofs.Keys == (set leaf | leaf in t.leaves)
    && (forall leaf :: leaf in t.proofs ==>
          Fold(keccak, leaf, t.proofs[leaf]) == t.root && |t.proofs[leaf]| <= CeilLog2(|t.leaves|))
  }

  method BuildMerkleTree(keccak: PairHash, leaves: seq<Hex>) returns (r: Result<MerkleTree>)
    requires LowercaseDigests(keccak)
    ensures r.Ok? <==> leaves != []
    ensures r.Ok? ==> TreeOf(keccak, r.value, leaves)
  {
    if |leaves| == 0 {
      return Err("buildMerkleTree: no leaves");
    }
    var ordered := Canonical(leaves);
    CanonicalLeaves(leaves);
    var proofs: map<Hex, seq<Hex>> := map leaf | leaf in ordered :: [];
    var level, groups := ordered, Singletons(ordered);
    ghost var depth := 0;
    SingletonsPartition(ordered);
    InitialSweep(keccak, ordered, proofs);
    while |level| > 1
      invariant level != []
      invariant SweepState(keccak, ordered, proofs, level, groups, 0, [], [], depth)
      invariant Root(keccak, level) == Root(keccak, ordered)
      invariant depth + CeilLog2(|level|) == CeilLog2(|ordered|)
      decreases |level|
    {
      var nextLevel, nextGroups;
      proofs, nextLevel, nextGroups := SweepLevel(keccak, ordered, level, groups, proofs, depth);
      NextSweep(keccak, ordered, proofs, level, groups, nextLevel, nextGroups, depth);
      level, groups := nextLevel, nextGroups;
      depth := depth + 1;
    }
    var t := MerkleTree(level[0], |ordered|, ordered, proofs);
    FinalProofs(keccak, ordered, proofs, level, groups, depth);
    r := Ok(t);
  }

  function Singletons(s: seq<Hex>): (r: seq<seq<Hex>>)
    ensures |r| == |s|
  {
    seq(|s|, i requires 0 <= i < |s| => [s[i]])
  }

  lemma {:induction false} SingletonsPartition(s: seq<Hex>)
    ensures Flatten(Singletons(s)) == s
  {
    if s != [] {
      SingletonsPartition(s[1..]);
      assert Singletons(s)[1..] == Singletons(s[1..]);
    }
  }

  lemma InitialSweep(keccak: PairHash, ordered: seq<Hex>, proofs: map<Hex, seq<Hex>>)
    requires StrictlySorted(ordered) && AllLower(ordered)
    requires proofs == map leaf | leaf in ordered :: []
    requires Flatten(Singletons(ordered)) == ordered
    ensures SweepState(keccak, ordered, proofs, ordered, Singletons(ordered), 0, [], [], 0)
  {
    var groups := Singletons(ordered);
    assert [] + groups[0..] == groups && [] + ordered[0..] == ordered;
    forall g | 0 <= g < |groups| ensures GroupReaches(keccak, proofs, groups[g], ordered[g], 0) {
      assert groups[g] == [ordered[g]] && ordered[g] in ordered;
    }
  }

  /** A completed sweep is the start of the next one. */
  lemma NextSweep(keccak: PairHash, leaves: seq<Hex>, proofs: map<Hex, seq<Hex>>, level: seq<Hex>, groups: seq<seq<Hex>>,
                  nextLevel: seq<Hex>, nextGroups: seq<seq<Hex>>, depth: nat)
    requires SweepState(keccak, leaves, proofs, level, groups, |level|, nextLevel, nextGroups, depth)
    ensures nextLevel == Up(keccak, level)
    ensures SweepState(keccak, leaves, proofs, nextLevel, nextGroups, 0, [], [], depth + 1)
  {
    assert groups[|level|..] == [] && level[|level|..] == [];
    assert nextGroups + [] == nextGroups && nextLevel + [] == nextLevel;
    assert [] + nextGroups[0..] == nextGroups && [] + nextLevel[0..] == nextLevel;
  }

  lemma FinalProofs(keccak: PairHash, leaves: seq<Hex>, proofs: map<Hex, seq<Hex>>, level: seq<Hex>, groups: seq<seq<Hex>>,
                    depth: nat)
    requires SweepState(keccak, leaves, proofs, level, groups, 0, [], [], depth) && |level| == 1
    ensures forall leaf :: leaf in proofs ==> Fold(keccak, leaf, proofs[leaf]) == level[0] && |proofs[leaf]| <= depth
  {
    assert [] + groups[0..] == groups && [] + level[0..] == level;
    assert groups == [groups[0]];
    assert Flatten(groups) == groups[0] by {
      assert groups[1..] == [];
    }
  }

  // ----- checking a proof

  method VerifyProof(keccak: PairHash, leaf: Hex, proof: seq<Hex>, root: Hex) returns (ok: bool)
    ensures ok <==> Verifies(keccak, leaf, proof, root)
  {
    var computed := Lower(leaf);
    for i := 0 to |proof|
      invariant computed == Fold(keccak, Lower(leaf), proof[..i])
    {
      assert proof[..i + 1][..i] == proof[..i];
      computed := HashPair(keccak, computed, proof[i]);
    }
    assert proof[..|proof|] == proof;
    ok := Lower(computed) == Lower(root);
  }

  /** Every submitted leaf, however it is cased, has a recorded proof that verifies. */
  lemma EveryLeafVerifies(keccak: PairHash, t: MerkleTree, leaves: seq<Hex>, leaf: Hex)
    requires TreeOf(keccak, t, leaves) && leaf in leaves
    ensures Lower(leaf) in t.proofs && Verifies(keccak, leaf, t.proofs[Lower(leaf)], t.root)
  {
    CanonicalLeaves(leaves);
    var i :| 0 <= i < |leaves| && leaves[i] == leaf;
    assert Lowered(leaves)[i] in Lowered(leaves);
  }

  /** The root depends only on which leaves were submitted, not on their order, case or repeats. */
  lemma RootDependsOnSet(keccak: PairHash, a: seq<Hex>, b: seq<Hex>)
    requires forall x :: x in Lowered(a) <==> x in Lowered(b)
    ensures Canonical(a) == Canonical(b)
    ensures a != [] && b != [] ==>
      Canonical(a) != [] && Root(keccak, Canonical(a)) == Root(keccak, Canonical(b))
  {
    CanonicalLeaves(a);
    CanonicalLeaves(b);
    SameLeaves(Canonical(a), Canonical(b));
  }
}

/** The API's own copy of proof checking, used by the public receipt verifier. */
module ApiMerkle {
  import opened Merkle

  function ApiHashPair(keccak: PairHash, a: Hex, b: Hex): Hex {
    if LexLe(Lower(a), Lower(b)) then keccak(a, b) else keccak(b, a)
  }

  /** The copy accepts exactly the proofs the worker's checker accepts. */
  method ApiVerifyProof(keccak: PairHash, leaf: Hex, proof: seq<Hex>,
                        root: Hex) returns (ok: bool)
    ensures ok <==> Verifies(keccak, leaf, proof, root)
  {
    var computed := Lower(leaf);
    for i := 0 to |proof|
      invariant computed == Fold(keccak, Lower(leaf), proof[..i])
    {
      assert proof[..i + 1][..i] == proof[..i];
      computed := ApiHashPair(keccak, computed, proof[i]);
    }
    assert proof[..|proof|] == proof;
    ok := Lower(computed) == Lower(root);
  }
}
