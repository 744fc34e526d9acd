/** The chain a node keeps: what its database answers, and how a block is stored. */
module Chain {
  import opened Common
  import opened Blocks

  /** Everything the database interface can be asked: blocks by hash, blocks by height, the latest height. */
  datatype Chain = Chain(blocks: map<Hash, Block>, byHeight: map<Uint64, Block>, latest: Option<Uint64>)

  const EMPTY: Chain := Chain(map[], map[], None)

  function BlockAt(c: Chain, n: Uint64): Option<Block> {
    if n in c.byHeight then Some(c.byHeight[n]) else None
  }

  /** The linking check of ValidateBlock: the block names the block at the latest height as its predecessor. */
  predicate Links(c: Chain, b: Block) {
    && c.latest.Some?
    && BlockAt(c, c.latest.value).Some?
    && b.header.lastHash == BlockAt(c, c.latest.value).value.header.hash
  }

  function Put(c: Chain, b: Block): Chain {
    c.(blocks := c.blocks[b.header.hash := b], byHeight := c.byHeight[b.header.height := b])
  }

  function Raised(c: Chain, n: Uint64): Chain {
    if c.latest.None? || n > c.latest.value then c.(latest := Some(n)) else c
  }

  /** StoreBlock; None is an error. `valid` is the outcome of ValidateBlock's other checks. */
  function Store(c: Chain, b: Block, valid: bool): Option<Chain> {
    if b.header.hash in c.blocks then Some(c)
    else if b.header.height != 0 && !(valid && Links(c, b)) then None
    else Some(Raised(Put(c, b), b.header.height))
  }

  predicate Stores(c: Chain, b: Block, valid: bool) {
    Store(c, b, valid).Some? && b.header.hash !in c.blocks
  }

  /** When StoreBlock succeeds: on a known hash, at height 0, or on a valid block that names the latest one; and what the
      database answers afterwards. */
  lemma StoreIff(c: Chain, b: Block, valid: bool)
    ensures Store(c, b, valid).Some? <==>
            || b.header.hash in c.blocks || b.header.height == 0
            || (valid && c.latest.Some? && c.latest.value in c.byHeight && b.header.lastHash == c.byHeight[c.latest.value].header.hash)
    ensures Store(c, b, valid).Some? ==>
            var c' := Store(c, b, valid).value;
            && b.header.hash in c'.blocks && (b.header.hash in c.blocks ==> c' == c)
            && (b.header.hash !in c.blocks ==>
                  && c'.blocks == c.blocks[b.header.hash := b] && c'.byHeight == c.byHeight[b.header.height := b]
                  && c'.latest.Some? && c'.latest.value >= b.header.height
                  && (c.latest.Some? ==> c'.latest.value >= c.latest.value)
                  && (c'.latest.value == b.header.height || c'.latest == c.latest))
  {
  }

  // ----- runs of StoreBlock with arbitrary blocks -----

  datatype Input = Input(block: Block, valid: bool)

  function At(c: Chain, inputs: seq<Input>, t: nat): Chain
    requires t <= |inputs|
  {
    if t == 0 then c
    else
      var c' := At(c, inputs, t - 1);
      match Store(c', inputs[t - 1].block, inputs[t - 1].valid) case None => c' case Some(c'') => c''
  }

  /** n steps along LastHash from h lead to a block of height 0, or fewer do. */
  predicate ReachesRoot(blocks: map<Hash, Block>, h: Hash, n: nat)
    decreases n
  {
    h in blocks && (blocks[h].header.height == 0 || (n > 0 && ReachesRoot(blocks, blocks[h].header.lastHash, n - 1)))
  }

  /** The two lookups agree, the latest height is the greatest stored one and is indexed. */
  ghost predicate Consistent(c: Chain) {
    && (forall h <- c.blocks :: c.blocks[h].header.hash == h && c.blocks[h].header.height in c.byHeight)
    && (forall n <- c.byHeight :: c.byHeight[n].header.height == n && c.byHeight[n].header.hash in c.blocks
                                  && c.blocks[c.byHeight[n].header.hash] == c.byHeight[n])
    && (c.latest.None? ==> c.blocks == map[] && c.byHeight == map[])
    && (c.latest.Some? ==> c.latest.value in c.byHeight && forall h <- c.blocks :: c.blocks[h].header.height <= c.latest.value)
  }

  ghost predicate RootedIn(blocks: map<Hash, Block>, h: Hash, bound: nat) {
    exists n: nat :: n <= bound && ReachesRoot(blocks, h, n)
  }

  ghost predicate Rooted(blocks: map<Hash, Block>) {
    forall h <- blocks :: RootedIn(blocks, h, |blocks|)
  }

  lemma StoreKeepsConsistent(c: Chain, b: Block, valid: bool)
    requires Consistent(c) && Store(c, b, valid).Some?
    ensures Consistent(Store(c, b, valid).value)
  {
  }

  lemma {:induction false} RootKept(blocks: map<Hash, Block>, b: Block, h: Hash, n: nat)
    requires b.header.hash !in blocks && ReachesRoot(blocks, h, n)
    ensures ReachesRoot(blocks[b.header.hash := b], h, n)
    decreases n
  {
    if blocks[h].header.height != 0 {
      RootKept(blocks, b, blocks[h].header.lastHash, n - 1);
    }
  }

  lemma AddKeepsRooted(blocks: map<Hash, Block>, b: Block)
    requires Rooted(blocks) && b.header.hash !in blocks && (b.header.height == 0 || b.header.lastHash in blocks)
    ensures Rooted(blocks[b.header.hash := b])
  {
    hide ReachesRoot;
    var blocks' := blocks[b.header.hash := b];
    assert blocks'.Keys == blocks.Keys + {b.header.hash};
    assert |blocks'| == |blocks| + 1;
    forall h <- blocks'
      ensures RootedIn(blocks', h, |blocks'|)
    {
      if h == b.header.hash { NewRooted(blocks, b); } else { OldRooted(blocks, b, h); }
    }
  }

  lemma OldRooted(blocks: map<Hash, Block>, b: Block, h: Hash)
    requires RootedIn(blocks, h, |blocks|) && b.header.hash !in blocks
    ensures RootedIn(blocks[b.header.hash := b], h, |blocks|)
  {
    hide ReachesRoot;
    var n: nat :| n <= |blocks| && ReachesRoot(blocks, h, n);
    RootKept(blocks, b, h, n);
  }

  lemma NewRooted(blocks: map<Hash, Block>, b: Block)
    requires b.header.hash !in blocks && (b.header.height == 0 || RootedIn(blocks, b.header.lastHash, |blocks|))
    ensures RootedIn(blocks[b.header.hash := b], b.header.hash, |blocks| + 1)
  {
    var blocks' := blocks[b.header.hash := b];
    if b.header.height == 0 {
      assert ReachesRoot(blocks', b.header.hash, 0);
    } else {
      OldRooted(blocks, b, b.header.lastHash);
      var n: nat :| n <= |blocks| && ReachesRoot(blocks', b.header.lastHash, n);
      assert ReachesRoot(blocks', b.header.hash, n + 1);
    }
  }

  lemma StoreKeepsRooted(c: Chain, b: Block, valid: bool)
    requires Consistent(c) && Rooted(c.blocks) && Stores(c, b, valid)
    ensures Rooted(Store(c, b, valid).value.blocks)
  {
    hide Rooted;
    AddKeepsRooted(c.blocks, b);
  }

  /** After any StoreBlock calls with any blocks: the latest height is the greatest stored height and its block can
      be fetched, both lookups give the same blocks, and LastHash leads from every stored block to a block of
      height 0 in at most as many steps as there are blocks. */
  lemma {:induction false} ChainSound(inputs: seq<Input>, t: nat)
    requires t <= |inputs|
    ensures Consistent(At(EMPTY, inputs, t)) && Rooted(At(EMPTY, inputs, t).blocks)
  {
    hide Consistent, Rooted, Store;
    if t == 0 {
      EmptySound();
    } else {
      ChainSound(inputs, t - 1);
      var c, b, valid := At(EMPTY, inputs, t - 1), inputs[t - 1].block, inputs[t - 1].valid;
      if Store(c, b, valid).Some? {
        StoreKeepsConsistent(c, b, valid);
        if Stores(c, b, valid) { StoreKeepsRooted(c, b, valid); } else { KnownUnchanged(c, b, valid); }
      }
    }
  }

  lemma EmptySound()
    ensures Consistent(EMPTY) && Rooted(EMPTY.blocks)
  {
  }

  lemma KnownUnchanged(c: Chain, b: Block, valid: bool)
    requires Store(c, b, valid).Some? && b.header.hash in c.blocks
    ensures Store(c, b, valid).value == c
  {
  }

  /** A stored block is never replaced, so no hash is stored twice. */
  lemma {:induction false} StoredForever(c: Chain, inputs: seq<Input>, i: nat, j: nat, h: Hash)
    requires i <= j <= |inputs| && h in At(c, inputs, i).blocks
    ensures h in At(c, inputs, j).blocks && At(c, inputs, j).blocks[h] == At(c, inputs, i).blocks[h]
  {
    if i < j {
      StoredForever(c, inputs, i, j - 1, h);
    }
  }

  predicate StoresAt(c: Chain, inputs: seq<Input>, i: nat)
    requires i < |inputs|
  {
    Stores(At(c, inputs, i), inputs[i].block, inputs[i].valid)
  }

  lemma StoredOnce(c: Chain, inputs: seq<Input>, i: nat, j: nat)
    requires i < j < |inputs| && StoresAt(c, inputs, i) && StoresAt(c, inputs, j)
    ensures inputs[i].block.header.hash != inputs[j].block.header.hash
  {
    assert inputs[i].block.header.hash in At(c, inputs, i + 1).blocks;
    StoredForever(c, inputs, i + 1, j, inputs[i].block.header.hash);
  }
}
