/** Chains without gaps: what the two linking checks together guarantee, and what either misses alone. */
module GapFree {
  import opened Common
  import opened Blocks
  import opened Chain

  /** Heights are uint64, so the predecessor of height 0 is the greatest one. */
  function PreviousHeight(n: Uint64): Uint64 {
    if n == 0 then MAX_UINT64 else n - 1
  }

  function NextHeight(n: Uint64): Uint64 {
    if n == MAX_UINT64 then 0 else n + 1
  }

  const GENESIS_HASH: Hash := [68, 73, 77, 73, 67, 65, 78, 68, 85, 77]
  // It has no proposer.
  const GENESIS: Block := Block(Header(1620845070, 0, GENESIS_HASH, [], 0, ZERO_ADDRESS), [])

  /** CreateBlock on a given predecessor; time, hash, proposer and transactions come from outside. */
  function CreateBlock(last: Header, timestamp: int, hash: Hash, proposer: Peer, proposerEth: Address, txs: seq<Transaction>): Block {
    Block(Header(timestamp, NextHeight(last.height), hash, last.hash, proposer, proposerEth), txs)
  }

  /** processReceivedBlock; `verified` is the outcome of its merkle checks. */
  function ProcessReceivedBlock(c: Chain, b: Block, verified: bool, valid: bool): Option<Chain> {
    match BlockAt(c, PreviousHeight(b.header.height))
    case None => None
    case Some(previous) =>
      if b.header.lastHash != previous.header.hash || !verified then None else Store(c, b, valid)
  }

  datatype Entry =
    | Genesis
    | Received(block: Block, verified: bool, valid: bool)
    | Created(parent: Hash, timestamp: int, hash: Hash, proposer: Peer, proposerEth: Address, txs: seq<Transaction>, valid: bool)

  function Enter(c: Chain, e: Entry): Option<Chain> {
    match e
    case Genesis => Store(c, GENESIS, true)
    case Received(block, verified, valid) => ProcessReceivedBlock(c, block, verified, valid)
    case Created(parent, timestamp, hash, proposer, proposerEth, txs, valid) =>
      if parent in c.blocks then Store(c, CreateBlock(c.blocks[parent].header, timestamp, hash, proposer, proposerEth, txs), valid) else None
  }

  function Entered(c: Chain, entries: seq<Entry>, t: nat): Chain
    requires t <= |entries|
  {
    if t == 0 then c
    else
      var c' := Entered(c, entries, t - 1);
      match Enter(c', entries[t - 1]) case None => c' case Some(c'') => c''
  }

  /** The block at height n names the one below. */
  predicate Linked(c: Chain, n: Uint64) {
    n in c.byHeight && (n > 0 ==> n - 1 in c.byHeight && c.byHeight[n].header.lastHash == c.byHeight[n - 1].header.hash)
  }

  ghost predicate HeightsFilled(c: Chain) {
    forall n: Uint64 :: n in c.byHeight <==> n < Next(c)
  }

  ghost predicate OnePerHeight(c: Chain) {
    forall h <- c.blocks :: c.blocks[h].header.height in c.byHeight && c.byHeight[c.blocks[h].header.height].header.hash == h
  }

  ghost predicate AllLinked(c: Chain) {
    forall n: Uint64 {:trigger Linked(c, n)} :: n in c.byHeight ==> Linked(c, n)
  }

  /** Exactly the heights up to the latest are taken, each by one block, and each block names the one below. */
  ghost predicate NoGaps(c: Chain) {
    Consistent(c) && HeightsFilled(c) && OnePerHeight(c) && AllLinked(c)
  }

  /** The height a chain is waiting for. */
  function Next(c: Chain): nat {
    if c.latest.None? then 0 else c.latest.value + 1
  }

  /** Storing a new block keeps a gap-free chain gap-free exactly when the block has the next height. */
  lemma StoreKeepsNoGapsIff(c: Chain, b: Block, valid: bool)
    requires NoGaps(c) && Stores(c, b, valid)
    ensures NoGaps(Store(c, b, valid).value) <==> b.header.height == Next(c)
  {
    var c' := Store(c, b, valid).value;
    if b.header.height == Next(c) {
      NextKeepsNoGaps(c, b, valid);
    } else if b.header.height > Next(c) {
      assert Next(c) !in c'.byHeight && c'.latest == Some(b.header.height);
    } else {
      var o := c.byHeight[b.header.height];
      assert c'.blocks[o.header.hash] == o && c'.byHeight[o.header.height] == b;
    }
  }

  lemma NextKeepsNoGaps(c: Chain, b: Block, valid: bool)
    requires NoGaps(c) && Stores(c, b, valid) && b.header.height == Next(c)
    ensures NoGaps(Store(c, b, valid).value)
  {
    hide Store, Consistent, HeightsFilled, OnePerHeight, AllLinked, Links;
    StoreKeepsConsistent(c, b, valid);
    StoreParts(c, b, valid);
    var c' := Store(c, b, valid).value;
    NextFills(c, c', b);
    NextOnePerHeight(c, c', b);
    NextLinked(c, c', b);
  }

  ghost predicate Appended(c: Chain, c': Chain, b: Block) {
    && b.header.height == Next(c) && b.header.hash !in c.blocks && (b.header.height != 0 ==> Links(c, b))
    && c' == Chain(c.blocks[b.header.hash := b], c.byHeight[b.header.height := b], Some(b.header.height))
  }

  lemma NextFills(c: Chain, c': Chain, b: Block)
    requires HeightsFilled(c) && Appended(c, c', b)
    ensures HeightsFilled(c')
  {
  }

  lemma NextOnePerHeight(c: Chain, c': Chain, b: Block)
    requires HeightsFilled(c) && OnePerHeight(c) && Appended(c, c', b)
    ensures OnePerHeight(c')
  {
    hide Links;
    forall h <- c'.blocks
      ensures c'.blocks[h].header.height in c'.byHeight && c'.byHeight[c'.blocks[h].header.height].header.hash == h
    {
      if h != b.header.hash { assert c.blocks[h].header.height < Next(c); }
    }
  }

  lemma NextLinked(c: Chain, c': Chain, b: Block)
    requires HeightsFilled(c) && AllLinked(c) && Appended(c, c', b)
    ensures AllLinked(c')
  {
    forall n: Uint64 | n in c'.byHeight
      ensures Linked(c', n)
    {
      if n != b.header.height { assert Linked(c, n) && n < Next(c); }
    }
  }

  lemma NoGapsFacts(c: Chain)
    requires NoGaps(c)
    ensures Consistent(c)
    ensures forall n: Uint64 :: n in c.byHeight <==> n < Next(c)
    ensures forall n <- c.byHeight :: c.byHeight[n].header.height == n && c.byHeight[n].header.hash in c.blocks
                                      && c.blocks[c.byHeight[n].header.hash] == c.byHeight[n]
    ensures forall h <- c.blocks :: c.blocks[h].header.hash == h && c.blocks[h].header.height < Next(c)
    ensures c.latest.None? ==> c.blocks == map[]
  {
  }

  lemma StoreParts(c: Chain, b: Block, valid: bool)
    requires Stores(c, b, valid)
    ensures var c' := Store(c, b, valid).value;
            && c'.blocks == c.blocks[b.header.hash := b] && c'.byHeight == c.byHeight[b.header.height := b]
            && c'.latest == (if b.header.height >= Next(c) then Some(b.header.height) else c.latest)
            && (b.header.height != 0 ==> Links(c, b))
  {
  }

  /** Whatever enters by the three ways has the next height: the predecessor each block names is the tip. */
  lemma EntersNext(c: Chain, b: Block, valid: bool, previous: Block)
    requires Consistent(c) && Links(c, b) && previous.header.hash in c.blocks && c.blocks[previous.header.hash] == previous
    requires b.header.lastHash == previous.header.hash
    ensures previous.header.height == c.latest.value
  {
  }

  /** A gap-free chain that starts with the genesis block. */
  ghost predicate FromGenesis(c: Chain) {
    NoGaps(c) && (c.latest.Some? ==> 0 in c.byHeight && c.byHeight[0] == GENESIS)
  }

  lemma GenesisKnown(c: Chain)
    requires FromGenesis(c)
    ensures NoGaps(c) && (GENESIS_HASH in c.blocks <==> c.latest.Some?)
  {
  }

  lemma StoreEntered(c: Chain, b: Block, valid: bool)
    requires FromGenesis(c) && Store(c, b, valid).Some?
    requires b.header.hash !in c.blocks ==> b.header.height == Next(c) && (Next(c) == 0 ==> b == GENESIS)
    ensures FromGenesis(Store(c, b, valid).value) && Next(Store(c, b, valid).value) <= Next(c) + 1
  {
    hide NoGaps;
    if b.header.hash !in c.blocks { NextKeepsNoGaps(c, b, valid); }
  }

  lemma EntryKeeps(c: Chain, e: Entry)
    requires FromGenesis(c) && Next(c) <= MAX_UINT64 && Enter(c, e).Some?
    ensures FromGenesis(Enter(c, e).value) && Next(Enter(c, e).value) <= Next(c) + 1
  {
    hide FromGenesis, NoGaps, Consistent, Store;
    GenesisKnown(c);
    NoGapsFacts(c);
    match e
    case Genesis => StoreEntered(c, GENESIS, true);
    case Received(b, verified, valid) =>
      if b.header.hash !in c.blocks {
        StoreParts(c, b, valid);
        EntersNext(c, b, valid, c.byHeight[b.header.height - 1]);
      }
      StoreEntered(c, b, valid);
    case Created(parent, timestamp, hash, proposer, proposerEth, txs, valid) =>
      var b := CreateBlock(c.blocks[parent].header, timestamp, hash, proposer, proposerEth, txs);
      if b.header.hash !in c.blocks {
        StoreParts(c, b, valid);
        EntersNext(c, b, valid, c.blocks[parent]);
      }
      StoreEntered(c, b, valid);
  }

  /** Over every run of fewer than 2^64 entries from an empty database: the stored heights are exactly 0 to the
      latest, each held by one block, and every block names the hash one height below. */
  lemma {:induction false} GapFreeAlways(entries: seq<Entry>, t: nat)
    requires t <= |entries| <= MAX_UINT64
    ensures FromGenesis(Entered(EMPTY, entries, t)) && Next(Entered(EMPTY, entries, t)) <= t
  {
    hide FromGenesis, Enter;
    if t == 0 {
      EmptyFromGenesis();
    } else {
      GapFreeAlways(entries, t - 1);
      var c := Entered(EMPTY, entries, t - 1);
      if Enter(c, entries[t - 1]).Some? { EntryKeeps(c, entries[t - 1]); }
    }
  }

  lemma EmptyFromGenesis()
    ensures FromGenesis(EMPTY) && Next(EMPTY) == 0
  {
  }

  /** StoreBlock alone, as a NewBlock message uses it, does not check the height: on every gap-free chain it
      accepts a block that leaves a gap. */
  lemma StoreBlockAloneLeavesGap(c: Chain, hash: Hash)
    requires NoGaps(c) && c.latest.Some? && c.latest.value + 2 <= MAX_UINT64 && hash !in c.blocks
    ensures var b := Block(Header(0, c.latest.value + 2, hash, c.byHeight[c.latest.value].header.hash, 0, ZERO_ADDRESS), []);
            Stores(c, b, true) && !NoGaps(Store(c, b, true).value)
  {
    var b := Block(Header(0, c.latest.value + 2, hash, c.byHeight[c.latest.value].header.hash, 0, ZERO_ADDRESS), []);
    StoreKeepsNoGapsIff(c, b, true);
  }

  /** A node starts with the genesis block, and with nothing else. */
  lemma GenesisAccepted()
    ensures Enter(EMPTY, Genesis).Some?
    ensures var c := Enter(EMPTY, Genesis).value;
            c.blocks == map[GENESIS_HASH := GENESIS] && c.byHeight == map[0 := GENESIS] && c.latest == Some(0)
    ensures Next(Enter(EMPTY, Genesis).value) == 1
  {
  }

  /** A valid block created on the tip with a new hash becomes the new tip, at the next height and linked to the old one. */
  lemma CreatedExtends(c: Chain, timestamp: int, hash: Hash, proposer: Peer, proposerEth: Address, txs: seq<Transaction>)
    requires FromGenesis(c) && c.latest.Some? && c.latest.value < MAX_UINT64 && hash !in c.blocks
    ensures var tip := c.byHeight[c.latest.value].header.hash;
            var r := Enter(c, Created(tip, timestamp, hash, proposer, proposerEth, txs, true));
            && r.Some? && r.value.latest == Some(c.latest.value + 1) && hash in r.value.blocks
            && r.value.blocks[hash] == Block(Header(timestamp, c.latest.value + 1, hash, tip, proposer, proposerEth), txs)
            && r.value.byHeight == c.byHeight[c.latest.value + 1 := r.value.blocks[hash]]
  {
    hide NoGaps, Consistent;
    NoGapsFacts(c);
  }
}
