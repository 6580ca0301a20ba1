/**
 * The tamper-evident lifecycle log: each row's body hash folds in its parent's. The window
 * verifier, the full-chain verifier, and what agreeing on a last hash proves.
 *
 * `hash` stands for keccak256 of the body's canonical JSON (RFC 8785). Where collision freedom
 * matters it is assumed only between the bodies a statement names.
 */
module LifecycleChain {
  import opened Common

  /** A printed digest; the all-zero one is told apart from every other string. */
  datatype Digest = ZeroDigest | Digest(text: string)

  /** 32 zero bytes: the parent of the first row. */
  const GENESIS := ZeroDigest

  /** The signed fields of a row, apart from its parent's hash. */
  datatype Content = Content(
    at: string, prevState: Option<string>, newState: string, reason: string, isSnapshot: bool,
    keyHashPrefix: Option<string>, balanceUsd: Option<real>, keyRemainingUsd: Option<real>,
    reserveUsd: Option<real>, ledgerSpendUsd: Option<real>, providerSpendUsd: Option<real>,
    idsMismatch: bool)

  datatype Body = Body(content: Content, prevHash: Digest)

  type BodyHash = Body -> Digest

  /** A stored row; both hashes may be missing. */
  datatype Row = Row(content: Content, prevHash: Option<Digest>, bodyHash: Option<Digest>)

  datatype Check = Check(linked: bool, intact: bool, forks: seq<nat>, startsAtGenesis: bool, length: nat, brokenAt: Option<nat>)

  function BodyOf(r: Row, prevHash: Digest): Body {
    Body(r.content, prevHash)
  }

  function Parent(r: Row): Digest {
    if r.prevHash.Some? then r.prevHash.value else GENESIS
  }

  /** The body a row's hash must be the hash of. */
  function SignedBody(r: Row): Body {
    BodyOf(r, Parent(r))
  }

  /** Neither missing nor the empty string. */
  predicate Truthy(d: Option<Digest>) {
    d.Some? && d.value != Digest("")
  }

  // ----- the conditions on one row of a window

  predicate BodyOk(hash: BodyHash, r: Row) {
    r.bodyHash == Some(hash(SignedBody(r)))
  }

  predicate LinkOk(rows: seq<Row>, i: nat)
    requires i < |rows|
  {
    i == 0 || rows[i].prevHash == rows[i - 1].bodyHash
  }

  /** The truthy body hashes of the first `i` rows. */
  ghost function Seen(rows: seq<Row>, i: nat): set<Digest>
    requires i <= |rows|
  {
    set k | 0 <= k < i && Truthy(rows[k].bodyHash) :: rows[k].bodyHash.value
  }

  ghost predicate ParentSeen(rows: seq<Row>, i: nat)
    requires i < |rows|
  {
    Truthy(rows[i].prevHash) && rows[i].prevHash.value in Seen(rows, i)
  }

  /** Altered, or its parent is nowhere before it. */
  ghost predicate Broken(hash: BodyHash, rows: seq<Row>, i: nat)
    requires i < |rows|
  {
    !BodyOk(hash, rows[i]) || (!LinkOk(rows, i) && !ParentSeen(rows, i))
  }

  /** Unaltered, but its parent is an earlier row than the one before it. */
  ghost predicate Fork(hash: BodyHash, rows: seq<Row>, i: nat)
    requires i < |rows|
  {
    BodyOk(hash, rows[i]) && !LinkOk(rows, i) && ParentSeen(rows, i)
  }

  /** `forks` lists, ascending, exactly the fork rows before `n`. */
  ghost predicate ListsForks(hash: BodyHash, rows: seq<Row>, forks: seq<nat>, n: nat)
    requires n <= |rows|
  {
    && (forall a, b :: 0 <= a < b < |forks| ==> forks[a] < forks[b])
    && (forall a :: 0 <= a < |forks| ==> forks[a] < n && Fork(hash, rows, forks[a]))
    && (forall i :: 0 <= i < n && Fork(hash, rows, i) ==> i in forks)
  }

  ghost predicate LeastBroken(hash: BodyHash, rows: seq<Row>, b: Option<nat>, n: nat)
    requires n <= |rows|
  {
    if b.None? then forall i :: 0 <= i < n ==> !Broken(hash, rows, i)
    else b.value < n && Broken(hash, rows, b.value) && forall i :: 0 <= i < b.value ==> !Broken(hash, rows, i)
  }

  /** Every row unaltered and chained to the one before it. */
  ghost predicate Linked(hash: BodyHash, rows: seq<Row>) {
    forall i {:trigger BodyOk(hash, rows[i])} {:trigger LinkOk(rows, i)} :: 0 <= i < |rows| ==> BodyOk(hash, rows[i]) && LinkOk(rows, i)
  }

  ghost predicate LinkedBefore(hash: BodyHash, rows: seq<Row>, n: nat)
    requires n <= |rows|
  {
    forall k {:trigger BodyOk(hash, rows[k])} {:trigger LinkOk(rows, k)} :: 0 <= k < n ==> BodyOk(hash, rows[k]) && LinkOk(rows, k)
  }

  lemma BrokenStep(hash: BodyHash, rows: seq<Row>, i: nat, b: Option<nat>, b': Option<nat>)
    requires i < |rows| && LeastBroken(hash, rows, b, i)
    requires b' == if b.None? && Broken(hash, rows, i) then Some(i) else b
    ensures LeastBroken(hash, rows, b', i + 1)
  {
  }

  /** What one row adds to the list of forks. */
  lemma ForkStep(hash: BodyHash, rows: seq<Row>, i: nat, forks: seq<nat>, forks': seq<nat>)
    requires i < |rows| && ListsForks(hash, rows, forks, i)
    requires forks' == if Fork(hash, rows, i) then forks + [i] else forks
    ensures ListsForks(hash, rows, forks', i + 1)
  {
    forall k | 0 <= k < i + 1 && Fork(hash, rows, k) ensures k in forks' {
      if k < i {
        assert k in forks;
      } else {
        assert forks'[|forks|] == i;
      }
    }
  }

  lemma SeenStep(rows: seq<Row>, i: nat)
    requires i < |rows|
    ensures Seen(rows, i + 1) == Seen(rows, i) + (if Truthy(rows[i].bodyHash) then {rows[i].bodyHash.value} else {})
  {
  }

  /** The window verifier reports the least break, exactly the forks, and full linkage exactly. */
  method VerifyLifecycleRows(hash: BodyHash, rows: seq<Row>) returns (c: Check)
    ensures c.linked <==> Linked(hash, rows)
    ensures LeastBroken(hash, rows, c.brokenAt, |rows|)
    ensures c.intact <==> c.brokenAt.None?
    ensures ListsForks(hash, rows, c.forks, |rows|)
    ensures c.startsAtGenesis <==> rows == [] || Parent(rows[0]) == GENESIS
    ensures c.length == |rows|
  {
    var linked := true;
    var brokenAt: Option<nat> := None;
    var forks: seq<nat> := [];
    var seenBodies: set<Digest> := {};
    for i := 0 to |rows|
      invariant linked <==> LinkedBefore(hash, rows, i)
      invariant LeastBroken(hash, rows, brokenAt, i)
      invariant ListsForks(hash, rows, forks, i)
      invariant seenBodies == Seen(rows, i)
    {
      var r := rows[i];
      var bodyOk := Some(hash(BodyOf(r, Parent(r)))) == r.bodyHash;
      var linkOk := if i == 0 then true else r.prevHash == rows[i - 1].bodyHash;
      ghost var forks0, broken0 := forks, brokenAt;
      if !linkOk {
        linked := false;
      }
      if !bodyOk {
        linked := false;
        if brokenAt.None? {
          brokenAt := Some(i);
        }
      } else if !linkOk {
        if Truthy(r.prevHash) && r.prevHash.value in seenBodies {
          forks := forks + [i];
        } else if brokenAt.None? {
          brokenAt := Some(i);
        }
      }
      if Truthy(r.bodyHash) {
        seenBodies := seenBodies + {r.bodyHash.value};
      }
      ForkStep(hash, rows, i, forks0, forks);
      BrokenStep(hash, rows, i, broken0, brokenAt);
      SeenStep(rows, i);
    }
    c := Check(linked, brokenAt.None?, forks, |rows| == 0 || Parent(rows[0]) == GENESIS, |rows|, brokenAt);
  }

  // ----- what the report means

  ghost predicate NonEmptyDigests(hash: BodyHash) {
    forall b :: hash(b) != Digest("")
  }

  /** Every row unaltered, and every row but the first chained to some earlier row. */
  ghost predicate EveryParentPresent(hash: BodyHash, rows: seq<Row>) {
    && (forall i :: 0 <= i < |rows| ==> BodyOk(hash, rows[i]))
    && (forall i :: 0 < i < |rows| ==> HasParent(rows, i))
  }

  ghost predicate HasParent(rows: seq<Row>, i: nat)
    requires i < |rows|
  {
    exists j :: 0 <= j < i && rows[i].prevHash == rows[j].bodyHash
  }

  lemma IntactHasParents(hash: BodyHash, rows: seq<Row>)
    requires forall i :: 0 <= i < |rows| ==> !Broken(hash, rows, i)
    ensures EveryParentPresent(hash, rows)
  {
    forall i | 0 <= i < |rows| ensures BodyOk(hash, rows[i]) {
      assert !Broken(hash, rows, i);
    }
    forall i | 0 < i < |rows| ensures HasParent(rows, i) {
      assert !Broken(hash, rows, i);
      if LinkOk(rows, i) {
        assert rows[i].prevHash == rows[i - 1].bodyHash;
      } else {
        var j :| 0 <= j < i && Truthy(rows[j].bodyHash) && rows[j].bodyHash.value == rows[i].prevHash.value;
        assert rows[i].prevHash == rows[j].bodyHash;
      }
    }
  }

  lemma ParentsMakeIntact(hash: BodyHash, rows: seq<Row>, i: nat)
    requires NonEmptyDigests(hash) && EveryParentPresent(hash, rows) && i < |rows|
    ensures !Broken(hash, rows, i)
  {
    assert BodyOk(hash, rows[i]);
    if i > 0 {
      assert HasParent(rows, i);
      var j :| 0 <= j < i && rows[i].prevHash == rows[j].bodyHash;
      assert BodyOk(hash, rows[j]);
      assert Truthy(rows[j].bodyHash) && rows[j].bodyHash.value in Seen(rows, i);
    }
  }

  /** A window is intact exactly when nothing was altered and no parent is missing. */
  lemma IntactIff(hash: BodyHash, rows: seq<Row>)
    requires NonEmptyDigests(hash)
    ensures (forall i :: 0 <= i < |rows| ==> !Broken(hash, rows, i)) <==> EveryParentPresent(hash, rows)
  {
    if EveryParentPresent(hash, rows) {
      forall i | 0 <= i < |rows| ensures !Broken(hash, rows, i) {
        ParentsMakeIntact(hash, rows, i);
      }
    } else if forall i :: 0 <= i < |rows| ==> !Broken(hash, rows, i) {
      IntactHasParents(hash, rows);
      assert false;
    }
  }

  lemma FirstFork(hash: BodyHash, rows: seq<Row>, forks: seq<nat>)
    requires ListsForks(hash, rows, forks, |rows|)
    ensures forks != [] ==> forks[0] < |rows| && Fork(hash, rows, forks[0])
  {
  }

  /** Linked is the same as intact without forks. */
  lemma LinkedIffIntactWithoutForks(hash: BodyHash, rows: seq<Row>, c: Check)
    requires LeastBroken(hash, rows, c.brokenAt, |rows|) && ListsForks(hash, rows, c.forks, |rows|)
    ensures Linked(hash, rows) <==> c.brokenAt.None? && c.forks == []
  {
    if Linked(hash, rows) {
      forall i | 0 <= i < |rows| ensures !Broken(hash, rows, i) && !Fork(hash, rows, i) {
        assert BodyOk(hash, rows[i]) && LinkOk(rows, i);
      }
      FirstFork(hash, rows, c.forks);
    }
    if c.brokenAt.None? && c.forks == [] {
      forall i | 0 <= i < |rows| ensures BodyOk(hash, rows[i]) && LinkOk(rows, i) {
        assert !Broken(hash, rows, i) && !Fork(hash, rows, i);
      }
    }
  }

  // ----- entries and the full-chain verifier

  /** A lifecycle entry before hashing; absent optional fields default. */
  datatype EntryInput = EntryInput(
    prevState: Option<string>, newState: string, reason: string, isSnapshot: Option<bool>,
    keyHashPrefix: Option<string>, balanceUsd: Option<real>, keyRemainingUsd: Option<real>,
    reserveUsd: Option<real>, ledgerSpendUsd: Option<real>, providerSpendUsd: Option<real>,
    idsMismatch: Option<bool>, at: Option<string>)

  datatype ChainEntry = ChainEntry(input: EntryInput, prevHash: Digest, bodyHash: Digest)

  function OrFalse(b: Option<bool>): bool {
    b.Some? && b.value
  }

  /** The signed fields of an entry recorded at `at`. */
  function EntryContent(x: EntryInput, at: string): Content {
    Content(at, x.prevState, x.newState, x.reason, OrFalse(x.isSnapshot), x.keyHashPrefix, x.balanceUsd,
            x.keyRemainingUsd, x.reserveUsd, x.ledgerSpendUsd, x.providerSpendUsd, OrFalse(x.idsMismatch))
  }

  /** Hash an entry onto a parent; a missing time is filled with `now`. */
  function BuildEntry(hash: BodyHash, x: EntryInput, prevHash: Digest,
                      now: string): (e: ChainEntry)
    ensures e.prevHash == prevHash && e.input == x.(at := Some(if x.at.Some? then x.at.value else now))
    ensures e.bodyHash == hash(Body(EntryContent(e.input, e.input.at.value), prevHash))
  {
    var at := if x.at.Some? then x.at.value else now;
    ChainEntry(x.(at := Some(at)), prevHash, hash(Body(EntryContent(x, at), prevHash)))
  }

  /** The row an entry is stored as. */
  function RowOf(e: ChainEntry): Row
    requires e.input.at.Some?
  {
    Row(EntryContent(e.input, e.input.at.value), Some(e.prevHash), Some(e.bodyHash))
  }

  function RowsOf(es: seq<ChainEntry>): (r: seq<Row>)
    requires forall i :: 0 <= i < |es| ==> es[i].input.at.Some?
    ensures |r| == |es| && forall i :: 0 <= i < |es| ==> r[i] == RowOf(es[i])
  {
    seq(|es|, i requires 0 <= i < |es| => RowOf(es[i]))
  }

  /** Rebuilding a stored entry hashes the body its row carries. */
  lemma Rebuild(hash: BodyHash, e: ChainEntry, now: string)
    requires e.input.at.Some?
    ensures BuildEntry(hash, e.input, e.prevHash, now).bodyHash == hash(SignedBody(RowOf(e)))
  {
  }

  /**
   * The full-chain verifier agrees with the window verifier: it accepts exactly the linked
   * windows that start at genesis.
   */
  method VerifyLifecycleChain(hash: BodyHash, entries: seq<ChainEntry>,
                              now: string) returns (ok: bool)
    requires forall i :: 0 <= i < |entries| ==> entries[i].input.at.Some?
    ensures ok <==> LinkedFromGenesis(hash, RowsOf(entries))
  {
    var prev := GENESIS;
    ghost var rows := RowsOf(entries);
    for i := 0 to |entries|
      invariant prev == if i == 0 then GENESIS else entries[i - 1].bodyHash
      invariant forall k :: 0 <= k < i ==> LinksFrom(hash, rows, k)
    {
      var e := entries[i];
      assert rows[i] == RowOf(e) && (i > 0 ==> rows[i - 1] == RowOf(entries[i - 1]));
      if e.prevHash != prev {
        assert !LinksFrom(hash, rows, i);
        return false;
      }
      var recomputed := BuildEntry(hash, e.input, e.prevHash, now).bodyHash;
      Rebuild(hash, e, now);
      if recomputed != e.bodyHash {
        assert !LinksFrom(hash, rows, i);
        return false;
      }
      prev := e.bodyHash;
    }
    ok := true;
  }

  /** A row that is unaltered and chained to the one before it, or to genesis. */
  ghost predicate LinksFrom(hash: BodyHash, rows: seq<Row>, i: nat)
    requires i < |rows|
  {
    && BodyOk(hash, rows[i])
    && (if i == 0 then Parent(rows[0]) == GENESIS else rows[i].prevHash == rows[i - 1].bodyHash)
  }

  ghost predicate LinkedFromGenesis(hash: BodyHash, rows: seq<Row>) {
    forall i :: 0 <= i < |rows| ==> LinksFrom(hash, rows, i)
  }

  /** Linked from genesis is linked, and starting at genesis. */
  lemma LinkedFromGenesisIff(hash: BodyHash, rows: seq<Row>)
    ensures LinkedFromGenesis(hash, rows) <==> Linked(hash, rows) && (rows == [] || Parent(rows[0]) == GENESIS)
  {
    if LinkedFromGenesis(hash, rows) {
      forall i | 0 <= i < |rows| ensures BodyOk(hash, rows[i]) && LinkOk(rows, i) {
        assert LinksFrom(hash, rows, i);
      }
      assert rows != [] ==> LinksFrom(hash, rows, 0);
    }
    if Linked(hash, rows) && (rows == [] || Parent(rows[0]) == GENESIS) {
      forall i | 0 <= i < |rows| ensures LinksFrom(hash, rows, i) {
        assert BodyOk(hash, rows[i]) && LinkOk(rows, i);
      }
    }
  }

  // ----- tamper evidence

  /** No two bodies, one from each window, share a hash unless they are the same body. */
  ghost predicate NoBodyCollision(hash: BodyHash, a: seq<Row>, b: seq<Row>) {
    forall i, j :: 0 <= i < |a| && 0 <= j < |b| && hash(SignedBody(a[i])) == hash(SignedBody(b[j])) ==>
      SignedBody(a[i]) == SignedBody(b[j])
  }

  /** The two rows carry the same signed body and hash. */
  ghost predicate Agree(a: seq<Row>, b: seq<Row>, i: nat, j: nat)
    requires i < |a| && j < |b|
  {
    SignedBody(a[i]) == SignedBody(b[j]) && a[i].bodyHash == b[j].bodyHash
  }

  /** Agreement on a hash propagates backwards along two linked windows. */
  lemma {:induction false} AgreeBackwards(hash: BodyHash, a: seq<Row>, b: seq<Row>, i: nat,
        j: nat, p: nat, q: nat)
    requires Linked(hash, a) && Linked(hash, b) && NoBodyCollision(hash, a, b)
    requires i < |a| && j < |b| && a[i].bodyHash == b[j].bodyHash
    requires p <= i && i - p == j - q
    ensures Agree(a, b, p, q)
    decreases i - p
  {
    if p == i {
      assert BodyOk(hash, a[i]) && BodyOk(hash, b[j]);
    } else {
      AgreeBackwards(hash, a, b, i, j, p + 1, q + 1);
      assert LinkOk(a, p + 1) && LinkOk(b, q + 1);
      assert BodyOk(hash, a[p]) && BodyOk(hash, b[q]);
      assert Parent(a[p + 1]) == Parent(b[q + 1]);
    }
  }

  /** Two linked windows of one length ending in the same hash carry the same signed bodies. */
  lemma SameLastHashSameBodies(hash: BodyHash, a: seq<Row>, b: seq<Row>)
    requires Linked(hash, a) && Linked(hash, b) && NoBodyCollision(hash, a, b)
    requires |a| == |b| > 0 && a[|a| - 1].bodyHash == b[|b| - 1].bodyHash
    ensures forall k :: 0 <= k < |a| ==> Agree(a, b, k, k)
  {
    forall k | 0 <= k < |a|
      ensures Agree(a, b, k, k)
    {
      AgreeBackwards(hash, a, b, |a| - 1, |b| - 1, k, k);
    }
  }

  /** Whole chains need no length check: from genesis, the last hash fixes every body. */
  lemma SameHeadSameChain(hash: BodyHash, a: seq<Row>, b: seq<Row>)
    requires Linked(hash, a) && Linked(hash, b) && NoBodyCollision(hash, a, b)
    requires |a| > 0 && |b| > 0 && Parent(a[0]) == GENESIS && Parent(b[0]) == GENESIS
    requires a[|a| - 1].bodyHash == b[|b| - 1].bodyHash
    requires forall i :: 0 <= i < |a| ==> hash(SignedBody(a[i])) != GENESIS
    requires forall i :: 0 <= i < |b| ==> hash(SignedBody(b[i])) != GENESIS
    ensures |a| == |b|
    ensures forall k :: 0 <= k < |a| ==> Agree(a, b, k, k)
  {
    var n := Min(|a|, |b|) - 1;
    var i, j := |a| - 1 - n, |b| - 1 - n;
    AgreeBackwards(hash, a, b, |a| - 1, |b| - 1, i, j);
    OnlyFirstHasGenesis(hash, a, i);
    OnlyFirstHasGenesis(hash, b, j);
    assert Parent(a[i]) == Parent(b[j]);
    SameLastHashSameBodies(hash, a, b);
  }

  lemma OnlyFirstHasGenesis(hash: BodyHash, a: seq<Row>, i: nat)
    requires Linked(hash, a) && i < |a| && Parent(a[0]) == GENESIS
    requires forall k :: 0 <= k < |a| ==> hash(SignedBody(a[k])) != GENESIS
    ensures Parent(a[i]) == GENESIS <==> i == 0
  {
    if i > 0 {
      assert LinkOk(a, i) && BodyOk(hash, a[i - 1]);
    }
  }

  // ----- what two chains with the same head share, field by field

  /** Every field of the two inputs agrees, an absent flag counting as false. */
  ghost predicate SameFields(x: EntryInput, y: EntryInput) {
    && x.at == y.at && x.prevState == y.prevState && x.newState == y.newState && x.reason == y.reason
    && (x.isSnapshot == Some(true) <==> y.isSnapshot == Some(true))
    && x.keyHashPrefix == y.keyHashPrefix && x.balanceUsd == y.balanceUsd && x.keyRemainingUsd == y.keyRemainingUsd
    && x.reserveUsd == y.reserveUsd && x.ledgerSpendUsd == y.ledgerSpendUsd && x.providerSpendUsd == y.providerSpendUsd
    && (x.idsMismatch == Some(true) <==> y.idsMismatch == Some(true))
  }

  /** Every entry's time is set. */
  ghost predicate Timed(es: seq<ChainEntry>) {
    forall i :: 0 <= i < |es| ==> es[i].input.at.Some?
  }

  /** No row's body hashes to the all-zero digest. */
  ghost predicate NoZeroHash(hash: BodyHash, rows: seq<Row>) {
    forall i :: 0 <= i < |rows| ==> hash(SignedBody(rows[i])) != GENESIS
  }

  /** Two chains from genesis that end in the same hash are as long, and agree in every field of every entry. */
  lemma SameHeadSameEntries(hash: BodyHash, a: seq<ChainEntry>, b: seq<ChainEntry>)
    requires Timed(a) && Timed(b) && LinkedFromGenesis(hash, RowsOf(a)) && LinkedFromGenesis(hash, RowsOf(b))
    requires NoBodyCollision(hash, RowsOf(a), RowsOf(b)) && NoZeroHash(hash, RowsOf(a)) && NoZeroHash(hash, RowsOf(b))
    requires |a| > 0 && |b| > 0 && a[|a| - 1].bodyHash == b[|b| - 1].bodyHash
    ensures |a| == |b|
    ensures forall k :: 0 <= k < |a| ==>
      SameFields(a[k].input, b[k].input) && a[k].prevHash == b[k].prevHash && a[k].bodyHash == b[k].bodyHash
  {
    var rows, others := RowsOf(a), RowsOf(b);
    LinkedFromGenesisIff(hash, rows);
    LinkedFromGenesisIff(hash, others);
    assert rows[|a| - 1] == RowOf(a[|a| - 1]) && others[|b| - 1] == RowOf(b[|b| - 1]);
    SameHeadSameChain(hash, rows, others);
    forall k | 0 <= k < |a|
      ensures SameFields(a[k].input, b[k].input) && a[k].prevHash == b[k].prevHash && a[k].bodyHash == b[k].bodyHash
    {
      assert Agree(rows, others, k, k) && rows[k] == RowOf(a[k]) && others[k] == RowOf(b[k]);
    }
  }
}
