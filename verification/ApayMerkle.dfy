/** The SHA-256 tree an uploaded hash batch is committed with. SHA-256 is the parameter
    `sha`; the buffers it is applied to are built byte by byte, so that a theorem about
    forged proofs needs `sha` to be collision-free only on the finitely many buffers that
    building the tree and checking the proof hash. */
module ApayMerkle {
  import opened Wrappers
  import opened Hex

  type Sha = Bytes -> Digest
  type Pubkey33 = k: Bytes | |k| == 33 witness seq(33, _ => 0)
  type BatchId16 = b: Bytes | |b| == 16 witness seq(16, _ => 0)

  /** A proof element's side; any text other than the two known ones is kept as Unknown. */
  datatype Side = Left | Right | Unknown(text: string)
  datatype MerkleProofElement = MerkleProofElement(sibling: string, side: Side)
  datatype LeafInput = LeafInput(hashIndex: nat, paymentHash: Digest)

  function DecodePubkey33(s: string): Option<Pubkey33> {
    match DecodeString(s)
    case Some(b) => if |b| == 33 then Some(b) else None
    case None => None
  }

  function DecodeBatchId16(s: string): Option<BatchId16> {
    match DecodeString(s)
    case Some(b) => if |b| == 16 then Some(b) else None
    case None => None
  }

  // ---------------------------------------------------------------- hashed buffers

  /** The domain tag inside every leaf buffer, as ASCII bytes. */
  function Tag(): (t: Bytes)
    ensures |t| == 18
  {
    ['U' as int, 'T' as int, 'E' as int, 'X' as int, 'O' as int, '_' as int, 'A' as int, 'P' as int, 'A' as int, 'Y' as int,
     '_' as int, 'H' as int, 'A' as int, 'S' as int, 'H' as int, '_' as int, 'V' as int, '1' as int]
  }

  /** The buffer the leaf's hash index is written into. */
  function IndexBuffer(): (b: Bytes)
    ensures |b| == 8
  {
    seq(8, _ => 0)
  }

  function LeafBuffer(rpk: Pubkey33, bid: BatchId16, e: LeafInput): Bytes {
    [0] + Tag() + rpk + bid + PutBigEndian(IndexBuffer(), e.hashIndex) + e.paymentHash
  }

  function NodeBuffer(left: Digest, right: Digest): Bytes {
    [1] + left + right
  }

  function LeafHash(sha: Sha, rpk: Pubkey33, bid: BatchId16, e: LeafInput): Digest {
    sha(LeafBuffer(rpk, bid, e))
  }

  function NodeHash(sha: Sha, left: Digest, right: Digest): Digest {
    sha(NodeBuffer(left, right))
  }

  function Leaves(sha: Sha, rpk: Pubkey33, bid: BatchId16, entries: seq<LeafInput>): (r: seq<Digest>)
    ensures |r| == |entries|
  {
    seq(|entries|, i requires 0 <= i < |entries| => LeafHash(sha, rpk, bid, entries[i]))
  }

  /** The layout of a leaf's buffer: a zero byte, the tag, the recipient's key, the batch id, the
      index as eight bytes from the most significant on, the payment hash. */
  lemma LeafBufferLayout(rpk: Pubkey33, bid: BatchId16, e: LeafInput)
    ensures var b := LeafBuffer(rpk, bid, e);
            && |b| == 108 && b[0] == 0 && (forall i :: 1 <= i < 19 ==> b[i] == "UTEXO_APAY_HASH_V1"[i - 1] as int)
            && b[19..52] == rpk && b[52..68] == bid
            && (forall i :: 68 <= i < 76 ==> b[i] == e.hashIndex / Capacity(75 - i) % 256)
            && b[76..108] == e.paymentHash
  {
    var b := LeafBuffer(rpk, bid, e);
    assert b[1..19] == Tag();
    forall i | 1 <= i < 19 ensures b[i] == "UTEXO_APAY_HASH_V1"[i - 1] as int {
      assert b[i] == b[1..19][i - 1];
      TagBytes(i - 1);
    }
    assert b[19..52] == rpk && b[52..68] == bid && b[76..108] == e.paymentHash;
    assert b[68..76] == PutBigEndian(IndexBuffer(), e.hashIndex);
    forall i | 68 <= i < 76 ensures b[i] == e.hashIndex / Capacity(75 - i) % 256 {
      assert b[i] == b[68..76][i - 68];
      BigEndianByte(IndexBuffer(), e.hashIndex, i - 68);
    }
  }

  lemma TagBytes(i: nat)
    requires i < 18
    ensures Tag()[i] == "UTEXO_APAY_HASH_V1"[i] as int
  {}

  /** The layout of an inner node's buffer: a one byte, the left child, the right child. */
  lemma NodeBufferLayout(left: Digest, right: Digest)
    ensures var b := NodeBuffer(left, right); |b| == 65 && b[0] == 1 && b[1..33] == left && b[33..65] == right
  {
    var b := NodeBuffer(left, right);
    assert b[1..33] == left && b[33..65] == right;
  }

  /** Two leaf buffers agree only when recipient, batch, index and payment hash all do. */
  lemma LeafBufferInjective(rpk: Pubkey33, bid: BatchId16, e: LeafInput, rpk': Pubkey33, bid': BatchId16, e': LeafInput)
    requires IsUint64(e.hashIndex) && IsUint64(e'.hashIndex)
    requires LeafBuffer(rpk, bid, e) == LeafBuffer(rpk', bid', e')
    ensures rpk == rpk' && bid == bid' && e == e'
  {
    var a, b := LeafBuffer(rpk, bid, e), LeafBuffer(rpk', bid', e');
    assert a[19..52] == rpk && b[19..52] == rpk';
    assert a[52..68] == bid && b[52..68] == bid';
    assert a[68..76] == PutBigEndian(IndexBuffer(), e.hashIndex) && b[68..76] == PutBigEndian(IndexBuffer(), e'.hashIndex);
    assert a[76..108] == e.paymentHash && b[76..108] == e'.paymentHash;
    EightBytesHoldUint64();
    PutBigEndianInjective(IndexBuffer(), e.hashIndex, e'.hashIndex);
  }

  lemma NodeBufferInjective(l: Digest, r: Digest, l': Digest, r': Digest)
    requires NodeBuffer(l, r) == NodeBuffer(l', r')
    ensures l == l' && r == r'
  {
    var a, b := NodeBuffer(l, r), NodeBuffer(l', r');
    assert a[1..33] == l && b[1..33] == l';
    assert a[33..65] == r && b[33..65] == r';
  }

  /** The leading byte keeps the two kinds of buffer apart. */
  lemma LeafIsNoNode(rpk: Pubkey33, bid: BatchId16, e: LeafInput, l: Digest, r: Digest)
    ensures LeafBuffer(rpk, bid, e) != NodeBuffer(l, r)
  {}

  // ---------------------------------------------------------------- the tree

  /** The position of the right child: the last node of an odd level pairs with itself. */
  function RightOf(i: nat, n: nat): (r: nat)
    requires i < n
    ensures r < n
  {
    if i + 1 < n then i + 1 else i
  }

  function NextLevel(sha: Sha, level: seq<Digest>): (next: seq<Digest>)
    ensures |next| == (|level| + 1) / 2
  {
    var n := |level|;
    seq((n + 1) / 2, i requires 0 <= i < (n + 1) / 2 => NodeHash(sha, level[2 * i], level[RightOf(2 * i, n)]))
  }

  function Root(sha: Sha, level: seq<Digest>): Digest
    requires level != []
    decreases |level|
  {
    if |level| == 1 then level[0] else Root(sha, NextLevel(sha, level))
  }

  function StepAt(level: seq<Digest>, idx: nat): MerkleProofElement
    requires idx < |level|
  {
    if idx % 2 == 0 then MerkleProofElement(EncodeToString(level[RightOf(idx, |level|)]), Right)
    else MerkleProofElement(EncodeToString(level[idx - 1]), Left)
  }

  function Proof(sha: Sha, level: seq<Digest>, idx: nat): seq<MerkleProofElement>
    requires idx < |level|
    decreases |level|
  {
    if |level| == 1 then [] else [StepAt(level, idx)] + Proof(sha, NextLevel(sha, level), idx / 2)
  }

  /** The buffer one proof element makes the verifier hash; none for malformed elements. */
  function StepBuffer(current: Digest, step: MerkleProofElement): Option<Bytes> {
    match DecodeHash32(step.sibling)
    case None => None
    case Some(sibling) =>
      if step.side == Left then Some(NodeBuffer(sibling, current))
      else if step.side == Right then Some(NodeBuffer(current, sibling))
      else None
  }

  /** What a proof carries a leaf to, or None when an element is malformed. */
  function Fold(sha: Sha, leaf: Digest, proof: seq<MerkleProofElement>): Option<Digest>
    decreases |proof|
  {
    if proof == [] then Some(leaf)
    else match StepBuffer(leaf, proof[0])
      case None => None
      case Some(b) => Fold(sha, sha(b), proof[1..])
  }

  predicate Verifies(sha: Sha, leaf: Digest, proof: seq<MerkleProofElement>, root: Digest) {
    Fold(sha, leaf, proof) == Some(root)
  }

  function Depth(n: nat): nat {
    if n <= 1 then 0 else 1 + Depth((n + 1) / 2)
  }

  function Pow2(n: nat): (p: nat)
    ensures p > 0
  {
    if n == 0 then 1 else 2 * Pow2(n - 1)
  }

  /** Reads a proof's sides as binary digits, lowest first; "left" is a one. */
  function IndexOfSides(proof: seq<MerkleProofElement>): nat {
    if proof == [] then 0
    else (if proof[0].side == Left then 1 else 0) + 2 * IndexOfSides(proof[1..])
  }

  lemma ProofUnfolds(sha: Sha, level: seq<Digest>, idx: nat, out: seq<MerkleProofElement>)
    requires idx < |level| && |level| > 1
    ensures out + Proof(sha, level, idx)
            == (out + [StepAt(level, idx)]) + Proof(sha, NextLevel(sha, level), idx / 2)
  {}

  // ---------------------------------------------------------------- the imperative code

  method ComputeNextLevel(sha: Sha, level: seq<Digest>) returns (next: seq<Digest>)
    ensures next == NextLevel(sha, level)
  {
    next := [];
    var i := 0;
    while i < |level|
      invariant i <= |level| + 1 && i == 2 * |next|
      invariant |next| <= (|level| + 1) / 2
      invariant forall k :: 0 <= k < |next| ==> next[k] == NextLevel(sha, level)[k]
    {
      var left := level[i];
      var right := left;
      if i + 1 < |level| {
        right := level[i + 1];
      }
      next := next + [NodeHash(sha, left, right)];
      i := i + 2;
    }
  }

  method ApayLeaves(sha: Sha, rpk: Pubkey33, bid: BatchId16, entries: seq<LeafInput>) returns (leaves: seq<Digest>)
    ensures leaves == Leaves(sha, rpk, bid, entries)
  {
    leaves := [];
    for i := 0 to |entries|
      invariant |leaves| == i
      invariant forall k :: 0 <= k < i ==> leaves[k] == Leaves(sha, rpk, bid, entries)[k]
    {
      leaves := leaves + [LeafHash(sha, rpk, bid, entries[i])];
    }
  }

  /** Panics over no leaves, which both callers exclude. */
  method MerkleRoot(sha: Sha, leaves: seq<Digest>) returns (root: Digest)
    requires leaves != []
    ensures root == Root(sha, leaves)
  {
    var level := leaves;
    while |level| > 1
      invariant level != [] && Root(sha, level) == Root(sha, leaves)
      decreases |level|
    {
      level := ComputeNextLevel(sha, level);
    }
    root := level[0];
  }

  method ComputeStep(level: seq<Digest>, idx: nat) returns (el: MerkleProofElement)
    requires idx < |level|
    ensures el == StepAt(level, idx)
  {
    if idx % 2 == 0 {
      var sib := level[idx];
      if idx + 1 < |level| {
        sib := level[idx + 1];
      }
      el := MerkleProofElement(EncodeToString(sib), Right);
    } else {
      var sib := level[idx - 1];
      el := MerkleProofElement(EncodeToString(sib), Left);
    }
  }

  method MerkleProof(sha: Sha, leaves: seq<Digest>, index: nat) returns (out: seq<MerkleProofElement>)
    requires index < |leaves|
    ensures out == Proof(sha, leaves, index)
  {
    out := [];
    var level: seq<Digest>, idx: nat := leaves, index;
    while |level| > 1
      invariant idx < |level|
      invariant out + Proof(sha, level, idx) == Proof(sha, leaves, index)
      decreases |level|
    {
      var el := ComputeStep(level, idx);
      ProofUnfolds(sha, level, idx, out);
      out := out + [el];
      level := ComputeNextLevel(sha, level);
      idx := idx / 2;
    }
  }

  method MerkleVerify(sha: Sha, leaf: Digest, proof: seq<MerkleProofElement>, root: Digest) returns (ok: bool)
    ensures ok <==> Verifies(sha, leaf, proof, root)
  {
    var current := leaf;
    for i := 0 to |proof|
      invariant Fold(sha, current, proof[i..]) == Fold(sha, leaf, proof)
    {
      assert proof[i..][1..] == proof[i + 1..];
      var sibling := DecodeHash32(proof[i].sibling);
      if sibling == None {
        return false;
      }
      if proof[i].side == Left {
        current := NodeHash(sha, sibling.value, current);
      } else if proof[i].side == Right {
        current := NodeHash(sha, current, sibling.value);
      } else {
        return false;
      }
    }
    return current == root;
  }

  // ---------------------------------------------------------------- completeness

  function PairBuffer(level: seq<Digest>, i: nat): Bytes
    requires 2 * i < |level|
  {
    NodeBuffer(level[2 * i], level[RightOf(2 * i, |level|)])
  }

  /** A generated proof element hashes exactly the pair its index is in. */
  lemma StepIsPair(level: seq<Digest>, idx: nat)
    requires idx < |level|
    ensures StepBuffer(level[idx], StepAt(level, idx)) == Some(PairBuffer(level, idx / 2))
  {
    if idx % 2 == 1 {
      DecodeEncode(level[idx - 1]);
    } else {
      DecodeEncode(level[RightOf(idx, |level|)]);
    }
  }

  lemma StepReachesParent(sha: Sha, level: seq<Digest>, idx: nat)
    requires idx < |level|
    ensures match StepBuffer(level[idx], StepAt(level, idx))
            case Some(b) => sha(b) == NextLevel(sha, level)[idx / 2]
            case None => false
  {
    StepIsPair(level, idx);
  }

  lemma {:induction false} DepthIsCeilLog2(n: nat)
    requires n > 0
    ensures n <= Pow2(Depth(n)) && (n > 1 ==> Pow2(Depth(n) - 1) < n)
  {
    if n > 1 {
      DepthIsCeilLog2((n + 1) / 2);
    }
  }

  /** Every generated proof verifies, has ceil(log2 n) steps, and its sides spell the index. */
  lemma {:induction false} Completeness(sha: Sha, leaves: seq<Digest>, idx: nat)
    requires idx < |leaves|
    ensures Verifies(sha, leaves[idx], Proof(sha, leaves, idx), Root(sha, leaves))
    ensures |Proof(sha, leaves, idx)| == Depth(|leaves|)
    ensures IndexOfSides(Proof(sha, leaves, idx)) == idx
    decreases |leaves|
  {
    if |leaves| > 1 {
      var p := Proof(sha, leaves, idx);
      assert p[1..] == Proof(sha, NextLevel(sha, leaves), idx / 2);
      StepReachesParent(sha, leaves, idx);
      Completeness(sha, NextLevel(sha, leaves), idx / 2);
    }
  }

  // ---------------------------------------------------------------- soundness and binding

  ghost predicate CollisionFree(sha: Sha, s: set<Bytes>) {
    forall x, y :: x in s && y in s && sha(x) == sha(y) ==> x == y
  }

  /** Among `s` are the node buffers hashed for the level above this one. */
  ghost predicate HoldsLevel(level: seq<Digest>, s: set<Bytes>) {
    forall i :: 0 <= i < (|level| + 1) / 2 ==> PairBuffer(level, i) in s
  }

  /** Those hashed while the tree over `level` is built. */
  ghost predicate HoldsTree(sha: Sha, level: seq<Digest>, s: set<Bytes>)
    decreases |level|
  {
    |level| <= 1 || (HoldsLevel(level, s) && HoldsTree(sha, NextLevel(sha, level), s))
  }

  /** Those hashed while a proof is checked. */
  ghost predicate HoldsProof(sha: Sha, leaf: Digest, proof: seq<MerkleProofElement>, s: set<Bytes>)
    decreases |proof|
  {
    proof == [] || match StepBuffer(leaf, proof[0])
                   case None => true
                   case Some(b) => b in s && HoldsProof(sha, sha(b), proof[1..], s)
  }

  /** The leaf buffers of these entries. */
  ghost predicate HoldsLeaves(rpk: Pubkey33, bid: BatchId16, entries: seq<LeafInput>, s: set<Bytes>) {
    forall e :: e in entries ==> LeafBuffer(rpk, bid, e) in s
  }

  lemma {:induction false} HoldsMore(sha: Sha, level: seq<Digest>, s: set<Bytes>, t: set<Bytes>)
    requires HoldsTree(sha, level, s) && s <= t
    ensures HoldsTree(sha, level, t)
    decreases |level|
  {
    if |level| > 1 {
      HoldsMore(sha, NextLevel(sha, level), s, t);
    }
  }

  /** Every tree is built from finitely many buffers. */
  lemma {:induction false} TreeHasBuffers(sha: Sha, level: seq<Digest>) returns (s: set<Bytes>)
    ensures HoldsTree(sha, level, s)
    decreases |level|
  {
    s := {};
    if |level| > 1 {
      var above := TreeHasBuffers(sha, NextLevel(sha, level));
      s := above + set i | 0 <= i < (|level| + 1) / 2 :: PairBuffer(level, i);
      HoldsMore(sha, NextLevel(sha, level), above, s);
    }
  }

  /** The tree's level `j` counted from the leaves. */
  ghost function Ancestors(sha: Sha, leaves: seq<Digest>, j: nat): seq<Digest>
    decreases j
  {
    if j == 0 then leaves else Ancestors(sha, NextLevel(sha, leaves), j - 1)
  }

  lemma {:induction false} RootIsTopLevel(sha: Sha, leaves: seq<Digest>)
    requires leaves != []
    ensures Ancestors(sha, leaves, Depth(|leaves|)) == [Root(sha, leaves)]
    decreases |leaves|
  {
    if |leaves| > 1 {
      RootIsTopLevel(sha, NextLevel(sha, leaves));
    }
  }

  lemma {:induction false} LevelAbove(sha: Sha, leaves: seq<Digest>, j: nat, s: set<Bytes>)
    requires leaves != [] && j < Depth(|leaves|) && HoldsTree(sha, leaves, s)
    ensures Ancestors(sha, leaves, j + 1) == NextLevel(sha, Ancestors(sha, leaves, j))
    ensures HoldsLevel(Ancestors(sha, leaves, j), s)
    decreases j
  {
    if j > 0 {
      LevelAbove(sha, NextLevel(sha, leaves), j - 1, s);
    }
  }

  lemma NodeOfLevel(sha: Sha, level: seq<Digest>, v: Digest, s: set<Bytes>) returns (l: Digest, r: Digest)
    requires v in NextLevel(sha, level) && HoldsLevel(level, s)
    ensures l in level && r in level
    ensures NodeBuffer(l, r) in s && v == NodeHash(sha, l, r)
  {
    var i :| 0 <= i < |NextLevel(sha, level)| && NextLevel(sha, level)[i] == v;
    l, r := level[2 * i], level[RightOf(2 * i, |level|)];
    assert PairBuffer(level, i) in s;
  }

  lemma EntryOfLeaf(sha: Sha, rpk: Pubkey33, bid: BatchId16, entries: seq<LeafInput>, v: Digest) returns (e: LeafInput)
    requires v in Leaves(sha, rpk, bid, entries)
    ensures e in entries && v == LeafHash(sha, rpk, bid, e)
  {
    var i :| 0 <= i < |entries| && Leaves(sha, rpk, bid, entries)[i] == v;
    e := entries[i];
  }

  /** Without collisions no leaf hash is a node hash. */
  lemma LeafHashIsNoNodeHash(sha: Sha, rpk: Pubkey33, bid: BatchId16, e: LeafInput, l: Digest, r: Digest, s: set<Bytes>)
    requires CollisionFree(sha, s) && LeafBuffer(rpk, bid, e) in s && NodeBuffer(l, r) in s
    ensures LeafHash(sha, rpk, bid, e) != NodeHash(sha, l, r)
  {
    LeafIsNoNode(rpk, bid, e, l, r);
  }

  /** A hash on an inner level was made from two nodes of the level below, so whatever
      was hashed to it is one of the two. */
  lemma ChildIsBelow(sha: Sha, level: seq<Digest>, l: Digest, r: Digest, s: set<Bytes>)
    requires CollisionFree(sha, s) && HoldsLevel(level, s) && NodeBuffer(l, r) in s
    requires NodeHash(sha, l, r) in NextLevel(sha, level)
    ensures l in level && r in level
  {
    var l', r' := NodeOfLevel(sha, level, NodeHash(sha, l, r), s);
    NodeBufferInjective(l, r, l', r');
  }

  /** One proof element climbs exactly one level, and never starts below the leaves. */
  lemma StepClimbsLevel(sha: Sha, rpk: Pubkey33, bid: BatchId16, entries: seq<LeafInput>,
                        l: Digest, r: Digest, k: nat, s: set<Bytes>)
    requires entries != [] && k <= Depth(|entries|)
    requires CollisionFree(sha, s) && NodeBuffer(l, r) in s
    requires HoldsLeaves(rpk, bid, entries, s) && HoldsTree(sha, Leaves(sha, rpk, bid, entries), s)
    requires NodeHash(sha, l, r) in Ancestors(sha, Leaves(sha, rpk, bid, entries), k)
    ensures k > 0
    ensures l in Ancestors(sha, Leaves(sha, rpk, bid, entries), k - 1)
    ensures r in Ancestors(sha, Leaves(sha, rpk, bid, entries), k - 1)
  {
    if k == 0 {
      var e := EntryOfLeaf(sha, rpk, bid, entries, NodeHash(sha, l, r));
      LeafHashIsNoNodeHash(sha, rpk, bid, e, l, r, s);
      assert false;
    }
    LevelAbove(sha, Leaves(sha, rpk, bid, entries), k - 1, s);
    ChildIsBelow(sha, Ancestors(sha, Leaves(sha, rpk, bid, entries), k - 1), l, r, s);
  }

  /** The two nodes the first proof element hashes, one of them the current value. */
  lemma FirstStep(sha: Sha, v: Digest, proof: seq<MerkleProofElement>, s: set<Bytes>) returns (l: Digest, r: Digest)
    requires proof != [] && Fold(sha, v, proof).Some? && HoldsProof(sha, v, proof, s)
    ensures l == v || r == v
    ensures Fold(sha, v, proof) == Fold(sha, NodeHash(sha, l, r), proof[1..])
    ensures NodeBuffer(l, r) in s && HoldsProof(sha, NodeHash(sha, l, r), proof[1..], s)
  {
    var sibling := DecodeHash32(proof[0].sibling).value;
    l := if proof[0].side == Left then sibling else v;
    r := if proof[0].side == Left then v else sibling;
    assert StepBuffer(v, proof[0]) == Some(NodeBuffer(l, r));
  }

  /** Whatever a proof carries to the root lies on the level the proof's length names. */
  lemma {:induction false} ProofClimbsTree(sha: Sha, rpk: Pubkey33, bid: BatchId16, entries: seq<LeafInput>,
                                           v: Digest, proof: seq<MerkleProofElement>, s: set<Bytes>) returns (j: nat)
    requires entries != []
    requires CollisionFree(sha, s)
    requires HoldsLeaves(rpk, bid, entries, s) && HoldsTree(sha, Leaves(sha, rpk, bid, entries), s)
    requires HoldsProof(sha, v, proof, s)
    ensures Verifies(sha, v, proof, Root(sha, Leaves(sha, rpk, bid, entries))) ==>
              j + |proof| == Depth(|entries|) && v in Ancestors(sha, Leaves(sha, rpk, bid, entries), j)
    decreases |proof|
  {
    j := 0;
    if proof == [] {
      RootIsTopLevel(sha, Leaves(sha, rpk, bid, entries));
      j := Depth(|entries|);
    } else if Verifies(sha, v, proof, Root(sha, Leaves(sha, rpk, bid, entries))) {
      var l, r := FirstStep(sha, v, proof, s);
      var k := ProofClimbsTree(sha, rpk, bid, entries, NodeHash(sha, l, r), proof[1..], s);
      StepClimbsLevel(sha, rpk, bid, entries, l, r, k, s);
      j := k - 1;
    }
  }

  /** Everything on an inner level was hashed from two nodes of the tree. */
  lemma InnerIsNode(sha: Sha, leaves: seq<Digest>, j: nat, v: Digest, s: set<Bytes>) returns (l: Digest, r: Digest)
    requires leaves != [] && 0 < j <= Depth(|leaves|) && v in Ancestors(sha, leaves, j) && HoldsTree(sha, leaves, s)
    ensures v == NodeHash(sha, l, r) && NodeBuffer(l, r) in s
  {
    LevelAbove(sha, leaves, j - 1, s);
    l, r := NodeOfLevel(sha, Ancestors(sha, leaves, j - 1), v, s);
  }

  /** A leaf hash lies on no inner level. */
  lemma LeafStaysBelow(sha: Sha, leaves: seq<Digest>, rpk: Pubkey33, bid: BatchId16, e: LeafInput, j: nat, s: set<Bytes>)
    requires leaves != [] && j <= Depth(|leaves|)
    requires CollisionFree(sha, s) && HoldsTree(sha, leaves, s) && LeafBuffer(rpk, bid, e) in s
    requires LeafHash(sha, rpk, bid, e) in Ancestors(sha, leaves, j)
    ensures j == 0
  {
    if j > 0 {
      var l, r := InnerIsNode(sha, leaves, j, LeafHash(sha, rpk, bid, e), s);
      LeafHashIsNoNodeHash(sha, rpk, bid, e, l, r, s);
    }
  }

  lemma LeafNamesEntry(sha: Sha, rpk: Pubkey33, bid: BatchId16, entries: seq<LeafInput>,
                       rpk': Pubkey33, bid': BatchId16, e: LeafInput, s: set<Bytes>)
    requires IsUint64(e.hashIndex) && forall x :: x in entries ==> IsUint64(x.hashIndex)
    requires CollisionFree(sha, s) && HoldsLeaves(rpk, bid, entries, s) && LeafBuffer(rpk', bid', e) in s
    requires LeafHash(sha, rpk', bid', e) in Leaves(sha, rpk, bid, entries)
    ensures rpk' == rpk && bid' == bid && e in entries
  {
    var x := EntryOfLeaf(sha, rpk, bid, entries, LeafHash(sha, rpk', bid', e));
    LeafBufferInjective(rpk, bid, x, rpk', bid', e);
  }

  /** No proof of any length makes the verifier accept a leaf that is not committed: it
      must name this recipient, this batch and one of the entries, and have full length.
      `s` is any set that holds the buffers hashed for the tree and for the proof. */
  lemma Soundness(sha: Sha, rpk: Pubkey33, bid: BatchId16, entries: seq<LeafInput>,
                  rpk': Pubkey33, bid': BatchId16, e: LeafInput, proof: seq<MerkleProofElement>, s: set<Bytes>)
    requires entries != []
    requires IsUint64(e.hashIndex) && forall x :: x in entries ==> IsUint64(x.hashIndex)
    requires CollisionFree(sha, s) && LeafBuffer(rpk', bid', e) in s
    requires HoldsLeaves(rpk, bid, entries, s) && HoldsTree(sha, Leaves(sha, rpk, bid, entries), s)
    requires HoldsProof(sha, LeafHash(sha, rpk', bid', e), proof, s)
    ensures Verifies(sha, LeafHash(sha, rpk', bid', e), proof, Root(sha, Leaves(sha, rpk, bid, entries))) ==>
              rpk' == rpk && bid' == bid && e in entries && |proof| == Depth(|entries|)
  {
    var leaves, v := Leaves(sha, rpk, bid, entries), LeafHash(sha, rpk', bid', e);
    var j := ProofClimbsTree(sha, rpk, bid, entries, v, proof, s);
    if Verifies(sha, v, proof, Root(sha, leaves)) {
      LeafStaysBelow(sha, leaves, rpk', bid', e, j, s);
      LeafNamesEntry(sha, rpk, bid, entries, rpk', bid', e, s);
    }
  }

  /** Checking a generated proof hashes only buffers that building the tree hashed. */
  lemma {:induction false} GeneratedProofBuffers(sha: Sha, leaves: seq<Digest>, idx: nat, s: set<Bytes>)
    requires idx < |leaves| && HoldsTree(sha, leaves, s)
    ensures HoldsProof(sha, leaves[idx], Proof(sha, leaves, idx), s)
    decreases |leaves|
  {
    if |leaves| > 1 {
      var p := Proof(sha, leaves, idx);
      assert p[1..] == Proof(sha, NextLevel(sha, leaves), idx / 2);
      StepReachesParent(sha, leaves, idx);
      StepBufferOnLevel(leaves, idx, s);
      GeneratedProofBuffers(sha, NextLevel(sha, leaves), idx / 2, s);
    }
  }

  lemma StepBufferOnLevel(level: seq<Digest>, idx: nat, s: set<Bytes>)
    requires idx < |level| && HoldsLevel(level, s)
    ensures StepBuffer(level[idx], StepAt(level, idx)).Some?
    ensures StepBuffer(level[idx], StepAt(level, idx)).value in s
  {
    StepIsPair(level, idx);
  }

  lemma PairBinds(sha: Sha, a: seq<Digest>, b: seq<Digest>, k: nat, s: set<Bytes>)
    requires k < |a| == |b|
    requires CollisionFree(sha, s) && HoldsLevel(a, s) && HoldsLevel(b, s)
    requires NextLevel(sha, a)[k / 2] == NextLevel(sha, b)[k / 2]
    ensures a[k] == b[k]
  {
    var l := 2 * (k / 2);
    var r := RightOf(l, |a|);
    assert PairBuffer(a, k / 2) in s && PairBuffer(b, k / 2) in s;
    NodeBufferInjective(a[l], a[r], b[l], b[r]);
  }

  /** Equal roots over equally many leaves mean equal leaves. `s` is any set that holds the
      buffers hashed for both trees. */
  lemma {:induction false} Binding(sha: Sha, a: seq<Digest>, b: seq<Digest>, s: set<Bytes>)
    requires |a| == |b| > 0
    requires CollisionFree(sha, s) && HoldsTree(sha, a, s) && HoldsTree(sha, b, s)
    ensures Root(sha, a) == Root(sha, b) ==> a == b
    decreases |a|
  {
    if |a| > 1 && Root(sha, a) == Root(sha, b) {
      var na, nb := NextLevel(sha, a), NextLevel(sha, b);
      Binding(sha, na, nb, s);
      forall k | 0 <= k < |a| ensures a[k] == b[k] {
        PairBinds(sha, a, b, k, s);
      }
    }
  }

  lemma OddDuplicatePair(sha: Sha, a: seq<Digest>, b: seq<Digest>, i: nat)
    requires |a| % 2 == 1 && b == a + [a[|a| - 1]] && 2 * i < |a|
    ensures NextLevel(sha, b)[i] == NextLevel(sha, a)[i]
  {
    assert b[2 * i] == a[2 * i] && b[RightOf(2 * i, |b|)] == a[RightOf(2 * i, |a|)];
  }

  lemma OddDuplicateLevel(sha: Sha, a: seq<Digest>, b: seq<Digest>)
    requires |a| % 2 == 1 && b == a + [a[|a| - 1]]
    ensures NextLevel(sha, b) == NextLevel(sha, a)
  {
    forall i | 0 <= i < |NextLevel(sha, a)| ensures NextLevel(sha, b)[i] == NextLevel(sha, a)[i] {
      OddDuplicatePair(sha, a, b, i);
    }
  }

  lemma RootAbove(sha: Sha, level: seq<Digest>)
    requires |level| > 1
    ensures Root(sha, level) == Root(sha, NextLevel(sha, level))
  {}

  /** Why the length matters: repeating the last leaf of an odd list of three or more
      leaves keeps the root, whatever the hash function. */
  lemma OddDuplicateKeepsRoot(sha: Sha, a: seq<Digest>)
    requires |a| % 2 == 1 && |a| >= 3
    ensures Root(sha, a + [a[|a| - 1]]) == Root(sha, a)
  {
    OddDuplicateLevel(sha, a, a + [a[|a| - 1]]);
    RootAbove(sha, a);
    RootAbove(sha, a + [a[|a| - 1]]);
  }

  /** Under one root the leaf lists are equal exactly when they are equally long. */
  lemma BindingIffSameLength(sha: Sha, a: seq<Digest>, b: seq<Digest>, s: set<Bytes>)
    requires a != [] && b != []
    requires CollisionFree(sha, s) && HoldsTree(sha, a, s) && HoldsTree(sha, b, s)
    ensures Root(sha, a) == Root(sha, b) ==> (a == b <==> |a| == |b|)
  {
    if |a| == |b| {
      Binding(sha, a, b, s);
    }
  }

  /** The committed entries are determined by recipient, batch, size and root. */
  lemma CommitmentBinds(sha: Sha, rpk: Pubkey33, bid: BatchId16, xs: seq<LeafInput>, ys: seq<LeafInput>, s: set<Bytes>)
    requires |xs| == |ys| > 0
    requires forall e :: e in xs || e in ys ==> IsUint64(e.hashIndex)
    requires CollisionFree(sha, s) && HoldsLeaves(rpk, bid, xs, s) && HoldsLeaves(rpk, bid, ys, s)
    requires HoldsTree(sha, Leaves(sha, rpk, bid, xs), s) && HoldsTree(sha, Leaves(sha, rpk, bid, ys), s)
    ensures Root(sha, Leaves(sha, rpk, bid, xs)) == Root(sha, Leaves(sha, rpk, bid, ys)) ==> xs == ys
  {
    var a, b := Leaves(sha, rpk, bid, xs), Leaves(sha, rpk, bid, ys);
    Binding(sha, a, b, s);
    if Root(sha, a) == Root(sha, b) {
      forall i | 0 <= i < |xs| ensures xs[i] == ys[i] {
        assert a[i] == LeafHash(sha, rpk, bid, xs[i]) && b[i] == LeafHash(sha, rpk, bid, ys[i]);
        assert xs[i] in xs && ys[i] in ys;
        LeafBufferInjective(rpk, bid, xs[i], rpk, bid, ys[i]);
      }
    }
  }
}
