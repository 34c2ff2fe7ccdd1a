/**
 Blocks, hashes and the local block store.  Hashing, part sets and commit
 signatures belong to CometBFT; they are values of `Crypto`, and no property of
 theirs is taken for granted except where a lemma asks for it by name.
 */
module Chain {
  import opened Common

  type Digest = string

  datatype PartSetHeader = PartSetHeader(total: int, hash: Digest)

  datatype BlockID = BlockID(hash: Digest, parts: PartSetHeader)

  datatype Commit = Commit(height: int, blockID: BlockID, signatures: string)

  datatype Header = Header(
    chainID: string,
    height: int,
    lastBlockID: BlockID,
    lastCommitHash: Digest,
    validatorsHash: Digest,
    rest: string)

  datatype Block = Block(header: Header, lastCommit: Option<Commit>, data: string)

  datatype Validators = Validators(keys: string)

  datatype Crypto = Crypto(
    headerHash: Header -> Digest,
    commitHash: Commit -> Digest,
    partSet: Block -> Option<PartSetHeader>,
    validatorsHash: Validators -> Digest,
    validatorsOk: Validators -> bool,
    verifyCommit: (Validators, string, BlockID, int, Commit) -> bool)

  /** A block without a last commit or a validators hash has no hash. */
  function Hash(c: Crypto, b: Block): Digest {
    if b.lastCommit.None? || b.header.validatorsHash == "" then "" else c.headerHash(b.header)
  }

  /** `next` commits to `prev` by hash, in its header and in its last commit. */
  predicate Linked(c: Crypto, prev: Block, next: Block) {
    && next.lastCommit.Some?
    && next.header.lastCommitHash == c.commitHash(next.lastCommit.value)
    && next.header.lastBlockID == next.lastCommit.value.blockID
    && next.header.lastBlockID.hash == Hash(c, prev)
  }

  /** Consecutive heights, each block linked to the one before. */
  ghost predicate LinkedChain(c: Crypto, bs: seq<Block>) {
    && Consecutive(bs)
    && forall i, j :: 0 <= i < j < |bs| && j == i + 1 ==> Linked(c, bs[i], bs[j])
  }

  ghost predicate Consecutive(bs: seq<Block>) {
    forall i :: 0 <= i < |bs| ==> bs[i].header.height == bs[0].header.height + i
  }

  /** The part of the header hash's collision resistance that `bs` relies on. */
  ghost predicate NoCollision(c: Crypto, bs: seq<Block>) {
    forall a, b :: a in bs && b in bs && c.headerHash(a.header) == c.headerHash(b.header) ==> a.header == b.header
  }

  /** CometBFT's block store: a contiguous run of blocks starting at `base`. */
  datatype Store = Store(base: int, blocks: seq<Block>) {
    ghost predicate Valid() {
      && (blocks == [] ==> base == 0)
      && (blocks != [] ==> base > 0 && blocks[0].header.height == base)
      && Consecutive(blocks)
    }

    function Height(): int { if blocks == [] then 0 else base + |blocks| - 1 }

    predicate Has(h: int) { base <= h < base + |blocks| }

    function Load(h: int): Option<Block> { if Has(h) then Some(blocks[h - base]) else None }

    function Save(b: Block): Store { Store(if blocks == [] then b.header.height else base, blocks + [b]) }

    /** Drops every block below `to`. */
    function Prune(to: int): Store
      requires blocks != [] && base <= to <= Height()
    {
      Store(to, blocks[to - base..])
    }
  }

  function EmptyStore(): Store { Store(0, []) }

  lemma LinkedSlice(c: Crypto, bs: seq<Block>, i: nat, j: nat)
    requires LinkedChain(c, bs) && i <= j <= |bs|
    ensures LinkedChain(c, bs[i..j])
  {
    var s := bs[i..j];
    assert forall k :: 0 <= k < |s| ==> s[k] == bs[i + k];
  }

  lemma LinkedExtend(c: Crypto, bs: seq<Block>, b: Block)
    requires LinkedChain(c, bs)
    requires bs != [] ==> Linked(c, bs[|bs| - 1], b) && b.header.height == bs[0].header.height + |bs|
    ensures LinkedChain(c, bs + [b])
  {
  }

  ghost predicate AllHashed(c: Crypto, bs: seq<Block>) {
    forall b :: b in bs ==> Hash(c, b) != ""
  }

  lemma SameHashSameHeader(c: Crypto, bs: seq<Block>, a: Block, b: Block)
    requires NoCollision(c, bs) && a in bs && b in bs && Hash(c, a) == Hash(c, b) != ""
    ensures a.header == b.header
  {
  }

  /**
   Two linked chains over the same heights that end in the same hash have the same
   header at every position `k`: each header fixes the hash of the one below it.
   */
  lemma {:induction false} ChainsAgreeDownward(c: Crypto, p: seq<Block>, q: seq<Block>, k: nat, all: seq<Block>)
    requires k < |p| == |q| && LinkedChain(c, p) && LinkedChain(c, q)
    requires Hash(c, p[|p| - 1]) == Hash(c, q[|q| - 1])
    requires forall i :: k <= i < |p| ==> p[i] in all && q[i] in all
    requires AllHashed(c, all) && NoCollision(c, all)
    ensures p[k].header == q[k].header
    decreases |p| - k
  {
    if k < |p| - 1 {
      ChainsAgreeDownward(c, p, q, k + 1, all);
      assert Linked(c, p[k], p[k + 1]) && Linked(c, q[k], q[k + 1]);
    }
    SameHashSameHeader(c, all, p[k], q[k]);
  }
}
