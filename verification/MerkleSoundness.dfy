/** What a verifying Merkle proof shows, and what a root binds, as long as no hashed bytes collide. */
module MerkleSoundness {
  import opened Merkle

  // ----- the bytes that are hashed

  /** A 32-byte value in hex. */
  predicate Word(h: Hex) {
    |h.text| == 66 && h.text[0] == '0' && h.text[1] == 'x'
  }

  /** The digits of a hex string, without its prefix. */
  function Digits(h: Hex): string {
    if |h.text| >= 2 && h.text[0] == '0' && h.text[1] == 'x' then h.text[2..] else h.text
  }

  function LowerText(s: string): (r: string)
    ensures |r| == |s|
  {
    Lower(Hex(s)).text
  }

  /** The bytes hashed for a pair: both strings' digits, whatever their case, an odd number padded in front. */
  function Preimage(p: (Hex, Hex)): string {
    var d := LowerText(Digits(p.0)) + LowerText(Digits(p.1));
    if |d| % 2 == 1 then ['0'] + d else d
  }

  /** The string has whole bytes. */
  predicate WholeBytes(h: Hex) {
    |Digits(h)| % 2 == 0
  }

  ghost predicate AllWhole(proof: seq<Hex>) {
    forall i :: 0 <= i < |proof| ==> WholeBytes(proof[i])
  }

  ghost predicate IsNode(h: Hex) {
    Word(h) && Lower(h) == h
  }

  /** Digests are 32 bytes long and printed in lower case. */
  ghost predicate Digests(keccak: PairHash) {
    LowercaseDigests(keccak) && forall a, b :: Word(keccak(a, b))
  }

  ghost predicate Nodes(s: seq<Hex>) {
    forall i :: 0 <= i < |s| ==> IsNode(s[i])
  }

  lemma LowerIsNode(h: Hex)
    requires Word(h)
    ensures IsNode(Lower(h))
  {
    LowerTwice(h);
  }

  lemma CanonicalNodes(leaves: seq<Hex>)
    requires forall x :: x in leaves ==> Word(x)
    ensures Nodes(Canonical(leaves))
  {
    CanonicalLeaves(leaves);
    var c := Canonical(leaves);
    forall i | 0 <= i < |c| ensures IsNode(c[i]) {
      assert c[i] in Lowered(leaves);
      var k :| 0 <= k < |leaves| && Lowered(leaves)[k] == c[i];
      assert leaves[k] in leaves;
      LowerIsNode(leaves[k]);
    }
  }

  /** A lower-case word is given by its digits. */
  lemma NodeFromDigits(a: Hex, b: Hex)
    requires IsNode(a) && IsNode(b) && LowerText(Digits(a)) == LowerText(Digits(b))
    ensures a == b
  {
    assert Lower(a).text == a.text && Lower(b).text == b.text;
    forall i | 0 <= i < 66 ensures a.text[i] == b.text[i] {
      if i >= 2 {
        assert LowerText(Digits(a))[i - 2] == LowerChar(a.text[i]) == Lower(a).text[i];
        assert LowerText(Digits(b))[i - 2] == LowerChar(b.text[i]) == Lower(b).text[i];
      }
    }
    assert a.text == b.text;
  }

  /** Bytes that split into two words split in one way around a third, so it is one of the two. */
  lemma SamePreimage(a: Hex, b: Hex, c: Hex, sibling: Hex)
    requires IsNode(a) && IsNode(b) && IsNode(c) && WholeBytes(sibling)
    requires Preimage(Arrange(a, b)) == Preimage(Arrange(c, sibling))
    ensures c == a || c == b
  {
    var p, q := Arrange(a, b), Arrange(c, sibling);
    var p0, p1, q0, q1 := LowerText(Digits(p.0)), LowerText(Digits(p.1)), LowerText(Digits(q.0)), LowerText(Digits(q.1));
    assert |p0| == |p1| == 64 && p0 + p1 == q0 + q1 && |p0 + p1| == |q0 + q1|;
    assert |q0| == |q1| == 64;
    SplitEqual(p0, p1, q0, q1);
    if q.0 == c {
      NodeFromDigits(p.0, c);
    } else {
      NodeFromDigits(p.1, c);
    }
  }

  lemma SplitEqual(p0: string, p1: string, q0: string, q1: string)
    requires p0 + p1 == q0 + q1 && |p0| == |q0|
    ensures p0 == q0 && p1 == q1
  {
    assert p0 == (p0 + p1)[..|p0|] && q0 == (q0 + q1)[..|q0|];
    assert p1 == (p0 + p1)[|p0|..] && q1 == (q0 + q1)[|q0|..];
  }

  lemma FoldIsNode(keccak: PairHash, start: Hex, proof: seq<Hex>)
    requires Digests(keccak) && IsNode(start)
    ensures IsNode(Fold(keccak, start, proof))
  {
  }

  lemma {:induction false} UpNodes(keccak: PairHash, level: seq<Hex>)
    requires Digests(keccak) && Nodes(level)
    ensures Nodes(Up(keccak, level))
  {
    if |level| > 1 {
      UpNodes(keccak, level[2..]);
    }
  }

  // ----- soundness: a folded proof shows membership

  /** The pairs hashed while climbing from `level` to the root. */
  ghost function TreePairs(keccak: PairHash, level: seq<Hex>): set<(Hex, Hex)>
    decreases |level|
  {
    if |level| <= 1 then {} else LevelPairs(level) + TreePairs(keccak, Up(keccak, level))
  }

  ghost function LevelPairs(level: seq<Hex>): set<(Hex, Hex)> {
    if |level| <= 1 then {} else {Arrange(level[0], level[1])} + LevelPairs(level[2..])
  }

  /** The pairs hashed while folding a proof. */
  ghost function FoldPairs(keccak: PairHash, start: Hex, proof: seq<Hex>): set<(Hex, Hex)> {
    if proof == [] then {}
    else
      var n := |proof| - 1;
      FoldPairs(keccak, start, proof[..n]) + {Arrange(Fold(keccak, start, proof[..n]), proof[n])}
  }

  /** No two pairs, one of each set, collide: equal digests come from the same bytes. */
  ghost predicate NoCollision(keccak: PairHash, ps: set<(Hex, Hex)>, qs: set<(Hex, Hex)>) {
    forall p, q :: p in ps && q in qs && keccak(p.0, p.1) == keccak(q.0, q.1) ==> Preimage(p) == Preimage(q)
  }

  /** No hash of a pair in `ps` equals `x`. */
  ghost predicate NotADigest(keccak: PairHash, ps: set<(Hex, Hex)>, x: Hex) {
    forall p :: p in ps ==> keccak(p.0, p.1) != x
  }

  /** A node of the next level is promoted from this one or is the hash of a pair of this level's nodes. */
  lemma {:induction false} UpMember(keccak: PairHash, level: seq<Hex>, x: Hex)
    requires x in Up(keccak, level)
    ensures x in level || exists a, b :: a in level && b in level && Arrange(a, b) in LevelPairs(level) && x == HashPair(keccak, a, b)
  {
    if |level| > 1 {
      if x == HashPair(keccak, level[0], level[1]) {
      } else {
        UpMember(keccak, level[2..], x);
        assert forall y :: y in level[2..] ==> y in level;
      }
    }
  }

  /** If a prefix of the fold meets a level, a prefix no longer meets the level below. */
  lemma DescendOneLevel(keccak: PairHash, level: seq<Hex>, start: Hex, proof: seq<Hex>,
                        j: nat) returns (j': nat)
    requires Digests(keccak) && Nodes(level) && IsNode(start) && AllWhole(proof)
    requires j <= |proof| && Fold(keccak, start, proof[..j]) in Up(keccak, level)
    requires NoCollision(keccak, LevelPairs(level), FoldPairs(keccak, start, proof[..j]))
    requires NotADigest(keccak, LevelPairs(level), start)
    ensures j' <= j && Fold(keccak, start, proof[..j']) in level
  {
    var x := Fold(keccak, start, proof[..j]);
    UpMember(keccak, level, x);
    if x in level {
      return j;
    }
    var a, b :| a in level && b in level && Arrange(a, b) in LevelPairs(level) && x == HashPair(keccak, a, b);
    assert j > 0;
    assert proof[..j][..j - 1] == proof[..j - 1];
    var c := Fold(keccak, start, proof[..j - 1]);
    FoldIsNode(keccak, start, proof[..j - 1]);
    assert Arrange(c, proof[j - 1]) in FoldPairs(keccak, start, proof[..j]);
    SamePreimage(a, b, c, proof[j - 1]);
    return j - 1;
  }

  lemma {:induction false} FoldPairsPrefix(keccak: PairHash, start: Hex, proof: seq<Hex>,
        j: nat)
    requires j <= |proof|
    ensures FoldPairs(keccak, start, proof[..j]) <= FoldPairs(keccak, start, proof)
  {
    if j < |proof| {
      FoldPairsPrefix(keccak, start, proof[..|proof| - 1], j);
      assert proof[..|proof| - 1][..j] == proof[..j];
    } else {
      assert proof[..j] == proof;
    }
  }

  lemma {:induction false} DescendToLeaves(keccak: PairHash, level: seq<Hex>, start: Hex,
        proof: seq<Hex>) returns (j: nat)
    requires Digests(keccak) && Nodes(level) && IsNode(start) && AllWhole(proof)
    requires level != [] && Fold(keccak, start, proof) == Root(keccak, level)
    requires NoCollision(keccak, TreePairs(keccak, level), FoldPairs(keccak, start, proof))
    requires NotADigest(keccak, TreePairs(keccak, level), start)
    ensures j <= |proof| && Fold(keccak, start, proof[..j]) in level
    decreases |level|
  {
    if |level| == 1 {
      assert proof[..|proof|] == proof;
      j := |proof|;
    } else {
      UpNodes(keccak, level);
      var i := DescendToLeaves(keccak, Up(keccak, level), start, proof);
      FoldPairsPrefix(keccak, start, proof, i);
      j := DescendOneLevel(keccak, level, start, proof, i);
    }
  }

  lemma FoldIsDigest(keccak: PairHash, start: Hex, proof: seq<Hex>)
    requires proof != []
    ensures exists p :: p in FoldPairs(keccak, start, proof) && Fold(keccak, start, proof) == keccak(p.0, p.1)
  {
    var n := |proof| - 1;
    var p := Arrange(Fold(keccak, start, proof[..n]), proof[n]);
    assert p in FoldPairs(keccak, start, proof);
  }

  /**
   * Soundness. A proof of any length and spelling that verifies against a built root shows its
   * leaf was committed, unless bytes hashed by the proof collide with bytes hashed by the tree,
   * or a leaf value is itself such a digest. Leaves are 32 bytes long, as report hashes are; the
   * siblings may have any number of whole bytes.
   */
  lemma ProofShowsMembership(keccak: PairHash, t: MerkleTree, leaves: seq<Hex>, leaf: Hex,
                             proof: seq<Hex>)
    requires Digests(keccak) && TreeOf(keccak, t, leaves)
    requires Word(leaf) && (forall x :: x in leaves ==> Word(x)) && AllWhole(proof)
    requires Verifies(keccak, leaf, proof, t.root)
    requires NoCollision(keccak, TreePairs(keccak, t.leaves), FoldPairs(keccak, Lower(leaf), proof))
    requires NotADigest(keccak, TreePairs(keccak, t.leaves), Lower(leaf))
    requires forall x :: x in t.leaves ==> NotADigest(keccak, FoldPairs(keccak, Lower(leaf), proof), x)
    ensures Lower(leaf) in t.leaves && Lower(leaf) in Lowered(leaves)
  {
    CanonicalLeaves(leaves);
    CanonicalNodes(leaves);
    LowerIsNode(leaf);
    RootIsLower(keccak, t.leaves);
    var start := Lower(leaf);
    var j := DescendToLeaves(keccak, t.leaves, start, proof);
    if j > 0 {
      FoldIsDigest(keccak, start, proof[..j]);
      FoldPairsPrefix(keccak, start, proof, j);
      assert false;
    }
  }

  lemma {:induction false} UpLower(keccak: PairHash, level: seq<Hex>)
    requires LowercaseDigests(keccak) && AllLower(level)
    ensures AllLower(Up(keccak, level))
  {
    if |level| > 1 {
      UpLower(keccak, level[2..]);
    }
  }

  lemma {:induction false} RootIsLower(keccak: PairHash, level: seq<Hex>)
    requires LowercaseDigests(keccak) && AllLower(level) && level != []
    ensures Lower(Root(keccak, level)) == Root(keccak, level)
    decreases |level|
  {
    if |level| > 1 {
      UpLower(keccak, level);
      RootIsLower(keccak, Up(keccak, level));
    }
  }

  // ----- binding: one root, one set of leaves

  /** A node of a level has a one-step (or empty) path to the next level. */
  lemma {:induction false} StepUp(keccak: PairHash, level: seq<Hex>,
                                  x: Hex) returns (step: seq<Hex>)
    requires x in level && AllLower(level)
    ensures |step| <= 1 && (forall i :: 0 <= i < |step| ==> step[i] in level) && Fold(keccak, x, step) in Up(keccak, level)
    ensures FoldPairs(keccak, x, step) <= LevelPairs(level)
  {
    if |level| == 1 {
      step := [];
    } else if x == level[0] {
      step := [level[1]];
      assert [level[1]][..0] == [];
      assert Fold(keccak, x, step) == HashPair(keccak, x, level[1]);
    } else if x == level[1] {
      step := [level[0]];
      assert [level[0]][..0] == [];
      assert Fold(keccak, x, step) == HashPair(keccak, x, level[0]);
      LexTotal(level[0], level[1]);
    } else {
      assert level == level[..2] + level[2..];
      step := StepUp(keccak, level[2..], x);
    }
  }

  lemma {:induction false} FoldConcat(keccak: PairHash, start: Hex, p: seq<Hex>, q: seq<Hex>)
    ensures Fold(keccak, start, p + q) == Fold(keccak, Fold(keccak, start, p), q)
    ensures FoldPairs(keccak, start, p + q) == FoldPairs(keccak, start, p) + FoldPairs(keccak, Fold(keccak, start, p), q)
  {
    if q == [] {
      assert p + q == p;
    } else {
      var n := |q| - 1;
      FoldConcat(keccak, start, p, q[..n]);
      assert (p + q)[..|p + q| - 1] == p + q[..n];
    }
  }

  /** Every node has a proof, made of whole bytes, that hashes only pairs of the tree. */
  lemma {:induction false} PathToRoot(keccak: PairHash, level: seq<Hex>,
                                      x: Hex) returns (proof: seq<Hex>)
    requires Digests(keccak) && Nodes(level) && x in level
    ensures Fold(keccak, x, proof) == Root(keccak, level) && AllWhole(proof)
    ensures FoldPairs(keccak, x, proof) <= TreePairs(keccak, level)
    decreases |level|
  {
    if |level| == 1 {
      proof := [];
    } else {
      NodesAreLower(level);
      var step := StepUp(keccak, level, x);
      UpNodes(keccak, level);
      var rest := PathToRoot(keccak, Up(keccak, level), Fold(keccak, x, step));
      FoldConcat(keccak, x, step, rest);
      WholeStep(level, step, rest);
      proof := step + rest;
    }
  }

  lemma WholeStep(level: seq<Hex>, step: seq<Hex>, rest: seq<Hex>)
    requires Nodes(level) && AllWhole(rest) && forall i :: 0 <= i < |step| ==> step[i] in level
    ensures AllWhole(step + rest)
  {
    forall i | 0 <= i < |step| ensures WholeBytes(step[i]) {
      var k :| 0 <= k < |level| && level[k] == step[i];
      assert IsNode(level[k]);
    }
  }

  lemma NodesAreLower(level: seq<Hex>)
    requires Nodes(level)
    ensures AllLower(level)
  {
    forall i | 0 <= i < |level| ensures Lower(level[i]) == level[i] {
      assert IsNode(level[i]);
    }
  }

  lemma RootCovers(keccak: PairHash, a: seq<Hex>, b: seq<Hex>, x: Hex)
    requires Digests(keccak) && Nodes(a) && Nodes(b) && b != []
    requires x in a && Root(keccak, a) == Root(keccak, b)
    requires NoCollision(keccak, TreePairs(keccak, b), TreePairs(keccak, a))
    requires NotADigest(keccak, TreePairs(keccak, b), x)
    requires forall y :: y in b ==> NotADigest(keccak, TreePairs(keccak, a), y)
    ensures x in b
  {
    var proof := PathToRoot(keccak, a, x);
    var j := DescendToLeaves(keccak, b, x, proof);
    if j > 0 {
      FoldIsDigest(keccak, x, proof[..j]);
      FoldPairsPrefix(keccak, x, proof, j);
      assert false;
    } else {
      assert proof[..0] == [];
    }
  }

  /** Binding. Two batches with one root are one batch, unless their trees' hashes collide. Leaves are 32 bytes long. */
  lemma RootBindsLeaves(keccak: PairHash, a: seq<Hex>, b: seq<Hex>)
    requires Digests(keccak) && a != [] && b != []
    requires forall x :: x in a || x in b ==> Word(x)
    requires Canonical(a) != [] && Canonical(b) != []
    requires Root(keccak, Canonical(a)) == Root(keccak, Canonical(b))
    requires NoCollision(keccak, TreePairs(keccak, Canonical(b)), TreePairs(keccak, Canonical(a)))
    requires forall x :: x in Lowered(a) || x in Lowered(b) ==>
      NotADigest(keccak, TreePairs(keccak, Canonical(a)) + TreePairs(keccak, Canonical(b)), x)
    ensures Canonical(a) == Canonical(b)
  {
    CanonicalLeaves(a);
    CanonicalLeaves(b);
    CanonicalNodes(a);
    CanonicalNodes(b);
    var ca, cb := Canonical(a), Canonical(b);
    forall x ensures x in ca <==> x in cb {
      if x in ca {
        RootCovers(keccak, ca, cb, x);
      }
      if x in cb {
        RootCovers(keccak, cb, ca, x);
      }
    }
    SameLeaves(ca, cb);
  }
}
