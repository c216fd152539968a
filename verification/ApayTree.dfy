/** The tree itself, independently of how it is computed: which node sits where, what the root
    is, and which proofs a verifier accepts. */
module ApayTree {
  import opened Wrappers
  import opened Hex
  import opened ApayMerkle

  /** The first leaf below node `i` of the level `h` above the leaves. */
  function First(h: nat, i: nat): nat {
    if h == 0 then i else First(h - 1, 2 * i)
  }

  /** That is, `i` times two to the `h`. */
  lemma {:induction false} FirstIs(h: nat, i: nat)
    ensures First(h, i) == i * Pow2(h)
  {
    if h > 0 {
      FirstIs(h - 1, 2 * i);
      assert (2 * i) * Pow2(h - 1) == i * (2 * Pow2(h - 1));
    }
  }

  lemma {:induction false} FirstDoubles(h: nat, i: nat)
    ensures First(h + 1, i) == 2 * First(h, i)
  {
    if h > 0 {
      FirstDoubles(h - 1, 2 * i);
    }
  }

  /** A node above the leaves is the digest of a one byte and its two children; a child with
      no leaf below it is replaced by its left sibling. */
  function Node(sha: Sha, leaves: seq<Digest>, h: nat, i: nat): Digest
    requires First(h, i) < |leaves|
  {
    if h == 0 then leaves[i]
    else
      var left := Node(sha, leaves, h - 1, 2 * i);
      var right := if First(h - 1, 2 * i + 1) < |leaves| then Node(sha, leaves, h - 1, 2 * i + 1) else left;
      sha([1] + left + right)
  }

  /** The node over the next level is the node one higher over this one. */
  predicate IsAbove(sha: Sha, level: seq<Digest>, h: nat, i: nat) {
    && First(h, i) < |NextLevel(sha, level)| && First(h + 1, i) < |level|
    && Node(sha, NextLevel(sha, level), h, i) == Node(sha, level, h + 1, i)
  }

  lemma ParentOfLeaves(sha: Sha, level: seq<Digest>, i: nat)
    requires i < (|level| + 1) / 2
    ensures IsAbove(sha, level, 0, i)
  {
    assert First(0, 2 * i) == 2 * i && First(0, 2 * i + 1) == 2 * i + 1;
    assert Node(sha, level, 0, 2 * i) == level[2 * i];
    assert 2 * i + 1 < |level| ==> Node(sha, level, 0, 2 * i + 1) == level[2 * i + 1];
  }

  lemma ParentOfNodes(sha: Sha, level: seq<Digest>, h: nat, i: nat)
    requires IsAbove(sha, level, h, 2 * i)
    requires First(h, 2 * i + 1) < |NextLevel(sha, level)| ==> IsAbove(sha, level, h, 2 * i + 1)
    ensures IsAbove(sha, level, h + 1, i)
  {
    FirstDoubles(h, 2 * i + 1);
  }

  lemma {:induction false} NodeAbove(sha: Sha, level: seq<Digest>, h: nat, i: nat)
    requires First(h, i) < |NextLevel(sha, level)|
    ensures IsAbove(sha, level, h, i)
    decreases h
  {
    if h == 0 {
      ParentOfLeaves(sha, level, i);
    } else {
      NodeAbove(sha, level, h - 1, 2 * i);
      if First(h - 1, 2 * i + 1) < |NextLevel(sha, level)| {
        NodeAbove(sha, level, h - 1, 2 * i + 1);
      }
      ParentOfNodes(sha, level, h - 1, i);
    }
  }

  /** Node 0 of level `h` stands above all leaves, and is the root. */
  predicate IsTop(sha: Sha, leaves: seq<Digest>, h: nat) {
    leaves != [] && First(h, 0) < |leaves| && Root(sha, leaves) == Node(sha, leaves, h, 0)
  }

  lemma TopOfOne(sha: Sha, leaves: seq<Digest>)
    requires |leaves| == 1
    ensures IsTop(sha, leaves, 0) && Depth(1) == 0
  {}

  lemma TopAbove(sha: Sha, leaves: seq<Digest>, h: nat)
    requires |leaves| > 1 && h == Depth((|leaves| + 1) / 2) && IsTop(sha, NextLevel(sha, leaves), h)
    ensures IsTop(sha, leaves, h + 1) && Depth(|leaves|) == h + 1
  {
    NodeAbove(sha, leaves, h, 0);
  }

  /** The root is the one node as high as the tree. */
  lemma {:induction false} RootIsTopNode(sha: Sha, leaves: seq<Digest>)
    requires leaves != []
    ensures IsTop(sha, leaves, Depth(|leaves|))
    decreases |leaves|
  {
    if |leaves| == 1 {
      TopOfOne(sha, leaves);
    } else {
      RootIsTopNode(sha, NextLevel(sha, leaves));
      TopAbove(sha, leaves, Depth((|leaves| + 1) / 2));
    }
  }

  // ---------------------------------------------------------------- verifying

  /** One element carries a digest to the next: the sibling is 32 bytes of hexadecimal text,
      and its side, which is one of the two, says where it goes. */
  predicate Carries(sha: Sha, from: Digest, el: MerkleProofElement, to: Digest) {
    DecodeString(el.sibling).Some? && |DecodeString(el.sibling).value| == 32
    && var sibling := DecodeString(el.sibling).value;
       match el.side
       case Left => to == sha([1] + sibling + from)
       case Right => to == sha([1] + from + sibling)
       case Unknown(_) => false
  }

  predicate IsPath(sha: Sha, path: seq<Digest>, proof: seq<MerkleProofElement>) {
    |path| == |proof| + 1 && forall i :: 0 <= i < |proof| ==> Carries(sha, path[i], proof[i], path[i + 1])
  }

  lemma StepCarriesIff(sha: Sha, from: Digest, el: MerkleProofElement, to: Digest)
    ensures Carries(sha, from, el, to) <==> StepBuffer(from, el).Some? && sha(StepBuffer(from, el).value) == to
  {}

  lemma {:induction false} FoldIsPath(sha: Sha, leaf: Digest, proof: seq<MerkleProofElement>) returns (path: seq<Digest>)
    requires Fold(sha, leaf, proof).Some?
    ensures IsPath(sha, path, proof) && path[0] == leaf && path[|proof|] == Fold(sha, leaf, proof).value
    decreases |proof|
  {
    if proof == [] {
      path := [leaf];
    } else {
      var next := sha(StepBuffer(leaf, proof[0]).value);
      StepCarriesIff(sha, leaf, proof[0], next);
      var rest := FoldIsPath(sha, next, proof[1..]);
      path := [leaf] + rest;
      forall i | 0 <= i < |proof| ensures Carries(sha, path[i], proof[i], path[i + 1]) {
        assert i > 0 ==> Carries(sha, rest[i - 1], proof[1..][i - 1], rest[i]);
      }
    }
  }

  lemma {:induction false} PathIsFold(sha: Sha, path: seq<Digest>, proof: seq<MerkleProofElement>)
    requires IsPath(sha, path, proof)
    ensures Fold(sha, path[0], proof) == Some(path[|proof|])
    decreases |proof|
  {
    if proof != [] {
      StepCarriesIff(sha, path[0], proof[0], path[1]);
      forall i | 0 <= i < |proof[1..]| ensures Carries(sha, path[1..][i], proof[1..][i], path[1..][i + 1]) {
        assert Carries(sha, path[i + 1], proof[i + 1], path[i + 2]);
      }
      PathIsFold(sha, path[1..], proof[1..]);
    }
  }

  /** A proof is accepted exactly when its elements carry the leaf to the root. */
  lemma VerifiesIff(sha: Sha, leaf: Digest, proof: seq<MerkleProofElement>, root: Digest)
    ensures Verifies(sha, leaf, proof, root) <==>
              exists path :: IsPath(sha, path, proof) && path[0] == leaf && path[|proof|] == root
  {
    if Verifies(sha, leaf, proof, root) {
      var path := FoldIsPath(sha, leaf, proof);
    }
    forall path | IsPath(sha, path, proof) && path[0] == leaf ensures Fold(sha, leaf, proof) == Some(path[|proof|]) {
      PathIsFold(sha, path, proof);
    }
  }
}
