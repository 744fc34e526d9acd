/** Initial synchronisation with another node. */
module Sync {
  import opened Common
  import opened Blocks
  import opened Chain
  import opened GapFree
  import opened BlockChain

  const MAX_BLOCK_COUNT_FOR_RETRIEVING: nat := 500

  // ----- answering a range of heights -----

  /** The blocks at heights lo to hi, lowest first. */
  function Present(c: Chain, lo: nat, hi: int): seq<Block>
    requires hi <= MAX_UINT64
    decreases hi - lo + 1
  {
    if hi < lo then []
    else if hi in c.byHeight then Present(c, lo, hi - 1) + [c.byHeight[hi]]
    else Present(c, lo, hi - 1)
  }

  /** The heights from lo to hi that have no block. */
  function Missing(c: Chain, lo: nat, hi: int): seq<Uint64>
    requires hi <= MAX_UINT64
    decreases hi - lo + 1
  {
    if hi < lo then []
    else if hi in c.byHeight then Missing(c, lo, hi - 1)
    else Missing(c, lo, hi - 1) + [hi]
  }

  /** What is answered are exactly the blocks of the range. */
  lemma {:induction false} PresentMembers(c: Chain, lo: nat, hi: int)
    requires Consistent(c) && hi <= MAX_UINT64
    ensures forall b :: b in Present(c, lo, hi) <==>
                        lo <= b.header.height <= hi && b.header.height in c.byHeight && c.byHeight[b.header.height] == b
    decreases hi - lo + 1
  {
    hide Consistent;
    if lo <= hi {
      PresentMembers(c, lo, hi - 1);
      IndexedHeight(c, hi);
    }
  }

  ghost predicate Ascending(bs: seq<Block>) {
    forall i, j :: 0 <= i < j < |bs| ==> bs[i].header.height < bs[j].header.height
  }

  lemma AscendingSnoc(bs: seq<Block>, b: Block)
    requires Ascending(bs) && forall x :: x in bs ==> x.header.height < b.header.height
    ensures Ascending(bs + [b])
  {
  }

  /** They come lowest first. */
  lemma {:induction false} PresentAscending(c: Chain, lo: nat, hi: int)
    requires Consistent(c) && hi <= MAX_UINT64
    ensures Ascending(Present(c, lo, hi))
    decreases hi - lo + 1
  {
    hide Consistent, Ascending;
    if lo <= hi {
      PresentAscending(c, lo, hi - 1);
      if hi in c.byHeight {
        PresentMembers(c, lo, hi - 1);
        IndexedHeight(c, hi);
        AscendingSnoc(Present(c, lo, hi - 1), c.byHeight[hi]);
      }
    } else {
      AscendingEmpty();
    }
  }

  lemma AscendingEmpty()
    ensures Ascending([])
  {
  }

  /** Every other height of the range is reported as failed, once. */
  lemma {:induction false} MissingMembers(c: Chain, lo: nat, hi: int)
    requires hi <= MAX_UINT64
    ensures var ns := Missing(c, lo, hi);
            && (forall n :: n in ns <==> lo <= n <= hi && n !in c.byHeight)
            && (forall i, j :: 0 <= i < j < |ns| ==> ns[i] < ns[j])
    decreases hi - lo + 1
  {
    if lo <= hi {
      MissingMembers(c, lo, hi - 1);
      var before := Missing(c, lo, hi - 1);
      forall i {:trigger before[i]} | 0 <= i < |before| ensures before[i] < hi { assert before[i] in before; }
    }
  }

  lemma IndexedHeight(c: Chain, n: Uint64)
    requires Consistent(c)
    ensures n in c.byHeight ==> c.byHeight[n].header.height == n
  {
  }

  lemma {:induction false} RangesJoin(c: Chain, lo: nat, mid: int, hi: int)
    requires lo - 1 <= mid <= hi <= MAX_UINT64
    ensures Present(c, lo, hi) == Present(c, lo, mid) + Present(c, mid + 1, hi)
    ensures Missing(c, lo, hi) == Missing(c, lo, mid) + Missing(c, mid + 1, hi)
    decreases hi - mid
  {
    if mid < hi { RangesJoin(c, lo, mid, hi - 1); }
  }

  lemma PresentEmpty(c: Chain, lo: nat, hi: Uint64)
    requires hi < lo
    ensures Present(c, lo, hi) == [] && Missing(c, lo, hi) == []
  {
  }

  datatype Reply = Reply(blocks: seq<Block>, failedBlockHeights: seq<Uint64>)

  /** The answer of a node with chain c to GetRangeOfBlocks. With `to` at the greatest uint64 its loop would never
      end, so such a call has no answer. */
  function RangeReply(c: Chain, from: Uint64, to: Uint64): Option<Reply>
    requires to < MAX_UINT64
  {
    if from > to || to - from > MAX_BLOCK_COUNT_FOR_RETRIEVING then None
    else Some(Reply(Present(c, from, to), Missing(c, from, to)))
  }

  class NetworkService {
    const blockchain: BlockChain

    constructor (blockchain: BlockChain)
      ensures this.blockchain == blockchain
    {
      this.blockchain := blockchain;
    }

    method GetRangeOfBlocks(from: Uint64, to: Uint64) returns (reply: Option<Reply>)
      requires blockchain.Valid() && to < MAX_UINT64
      ensures reply == RangeReply(blockchain.Contents(), from, to)
      ensures reply.Some? <==> from <= to <= from + 500
    {
      hide BlockChain.Valid, BlockChain.Contents;
      if from > to { return None; }
      if to - from > MAX_BLOCK_COUNT_FOR_RETRIEVING { return None; }
      var blocks, failed := [], [];
      var i: Uint64 := from;
      while i <= to
        invariant from <= i <= to + 1
        invariant blocks == Present(blockchain.Contents(), from, i - 1)
        invariant failed == Missing(blockchain.Contents(), from, i - 1)
      {
        var block := blockchain.FetchBlockByHeight(i);
        if block.None? { failed := failed + [i]; } else { blocks := blocks + [block.value]; }
        i := i + 1;
      }
      reply := Some(Reply(blocks, failed));
    }
  }

  // ----- the batches -----

  datatype Range = Range(from: nat, to: nat)

  /** The ranges asked for, when `count` heights above `to` are wanted. */
  function Ranges(to: nat, count: nat): seq<Range>
    decreases count
  {
    if count == 0 then []
    else
      var added := if count < MAX_BLOCK_COUNT_FOR_RETRIEVING then count else MAX_BLOCK_COUNT_FOR_RETRIEVING;
      [Range(to + 1, to + added)] + Ranges(to + added, count - added)
  }

  lemma RangesUnfolded(to: nat, count: nat)
    ensures Ranges(to, 0) == []
    ensures var added := if count < MAX_BLOCK_COUNT_FOR_RETRIEVING then count else MAX_BLOCK_COUNT_FOR_RETRIEVING;
            count > 0 ==> Ranges(to, count) == [Range(to + 1, to + added)] + Ranges(to + added, count - added)
  {
  }

  /** The ranges follow each other without gap or overlap from the first wanted height to the last, and each has
      1 to 500 heights. */
  lemma {:induction false} RangesPartition(to: nat, count: nat)
    ensures var rs := Ranges(to, count);
            && (count == 0 <==> rs == [])
            && (rs != [] ==> rs[0].from == to + 1 && rs[|rs| - 1].to == to + count)
            && (forall i | 0 <= i < |rs| :: 1 <= rs[i].to - rs[i].from + 1 <= 500)
            && (forall i | 0 < i < |rs| :: rs[i].from == rs[i - 1].to + 1)
    decreases count
  {
    if count > 0 {
      var added := if count < MAX_BLOCK_COUNT_FOR_RETRIEVING then count else MAX_BLOCK_COUNT_FOR_RETRIEVING;
      RangesPartition(to + added, count - added);
      var rs, rest := Ranges(to, count), Ranges(to + added, count - added);
      forall i | 0 < i < |rs| ensures rs[i] == rest[i - 1] {}
    }
  }

  // ----- processing what was received -----

  /** The blocks that pass the checks that depend on cryptography or other services: the merkle checks of
      processReceivedBlock, and those of ValidateBlock. */
  datatype Checks = Checks(verified: set<Block>, valid: set<Block>)

  function ProcessOne(c: Chain, b: Block, checks: Checks): Chain {
    match ProcessReceivedBlock(c, b, b in checks.verified, b in checks.valid) case None => c case Some(c') => c'
  }

  function ProcessAll(c: Chain, bs: seq<Block>, checks: Checks): Chain {
    if bs == [] then c else ProcessOne(ProcessAll(c, bs[..|bs| - 1], checks), bs[|bs| - 1], checks)
  }

  function OwnHeight(c: Chain): Uint64 {
    if c.latest.None? then 0 else c.latest.value
  }

  function Synced(c: Chain, remote: Chain, checks: Checks): Chain
    requires remote.latest.Some?
  {
    ProcessAll(c, Present(remote, OwnHeight(c) + 1, remote.latest.value), checks)
  }

  /** The remote node answers with its height, and all calls for the ranges up to it get through. */
  predicate Reachable(our: Uint64, remote: Chain, down: set<nat>) {
    && remote.latest.Some?
    && (our < remote.latest.value ==> forall k | 0 <= k < |Ranges(our, remote.latest.value - our)| :: k !in down)
  }

  /** The batching loop. `down` are the remote calls, by number, that do not get through; the remote node itself
      never refuses one. */
  method Retrieve(ourLastHeight: Uint64, remoteHeight: Uint64, remote: Chain, down: set<nat>)
    returns (received: Option<seq<Block>>, failed: seq<Uint64>, ranges: seq<Range>)
    requires ourLastHeight < remoteHeight < MAX_UINT64
    ensures received.Some? <==> forall k | 0 <= k < |Ranges(ourLastHeight, remoteHeight - ourLastHeight)| :: k !in down
    ensures received.Some? ==>
            && ranges == Ranges(ourLastHeight, remoteHeight - ourLastHeight)
            && received.value == Present(remote, ourLastHeight + 1, remoteHeight)
            && failed == Missing(remote, ourLastHeight + 1, remoteHeight)
  {
    hide Present, Missing, Ranges;
    PresentEmpty(remote, ourLastHeight + 1, ourLastHeight);
    var heightCount: nat := remoteHeight - ourLastHeight;
    var to: Uint64 := ourLastHeight;
    var blocks: seq<Block> := [];
    failed, ranges := [], [];
    while heightCount > 0
      invariant ourLastHeight <= to && to + heightCount == remoteHeight
      invariant ranges + Ranges(to, heightCount) == Ranges(ourLastHeight, remoteHeight - ourLastHeight)
      invariant forall k | 0 <= k < |ranges| :: k !in down
      invariant blocks == Present(remote, ourLastHeight + 1, to) && failed == Missing(remote, ourLastHeight + 1, to)
    {
      var from: Uint64 := to + 1;
      var addedVal := if heightCount < MAX_BLOCK_COUNT_FOR_RETRIEVING then heightCount else MAX_BLOCK_COUNT_FOR_RETRIEVING;
      heightCount := heightCount - addedVal;
      RangesJoin(remote, ourLastHeight + 1, to, to + addedVal);
      RangesUnfolded(to, heightCount + addedVal);
      to := to + addedVal;
      if |ranges| in down { return None, failed, ranges; }
      var reply := RangeReply(remote, from, to);
      blocks := blocks + reply.value.blocks;
      failed := failed + reply.value.failedBlockHeights;
      ranges := ranges + [Range(from, to)];
    }
    RangesUnfolded(to, 0);
    received := Some(blocks);
  }

  /** Everything the remote node has above our height. */
  method FetchAbove(our: Uint64, remote: Chain, down: set<nat>) returns (received: Option<seq<Block>>)
    requires remote.latest.Some? ==> remote.latest.value < MAX_UINT64
    ensures received.Some? <==> Reachable(our, remote, down)
    ensures received.Some? ==> received.value == Present(remote, our + 1, remote.latest.value)
  {
    hide Present, Ranges;
    var reply := remote.latest;
    if reply.None? { return None; }
    if reply.value > our {
      var failed, ranges;
      received, failed, ranges := Retrieve(our, reply.value, remote, down);
    } else {
      PresentEmpty(remote, our + 1, reply.value);
      received := Some([]);
    }
  }

  class SyncManager {
    const blockpool: BlockChain
    const hasBootstrapPeer: bool
    var initialSyncCompleted: bool

    constructor (blockpool: BlockChain, hasBootstrapPeer: bool)
      ensures this.blockpool == blockpool && this.hasBootstrapPeer == hasBootstrapPeer && !initialSyncCompleted
    {
      this.blockpool, this.hasBootstrapPeer, initialSyncCompleted := blockpool, hasBootstrapPeer, false;
    }

    method Process(block: Block, checks: Checks) returns (ok: bool)
      requires blockpool.Valid()
      modifies blockpool.Database()
      ensures blockpool.Valid()
      ensures ok <==> ProcessReceivedBlock(old(blockpool.Contents()), block, block in checks.verified, block in checks.valid).Some?
      ensures blockpool.Contents() ==
              if ok then ProcessReceivedBlock(old(blockpool.Contents()), block, block in checks.verified, block in checks.valid).value
              else old(blockpool.Contents())
    {
      var previous := blockpool.FetchBlockHeaderByHeight(PreviousHeight(block.header.height));
      if previous.None? { return false; }
      if block.header.lastHash != previous.value.hash { return false; }
      if block !in checks.verified { return false; }
      ok := blockpool.StoreBlock(block, block in checks.valid);
    }

    method DoInitialBlockPoolSync(remote: Chain, down: set<nat>, checks: Checks) returns (ok: bool)
      requires blockpool.Valid() && (remote.latest.Some? ==> remote.latest.value < MAX_UINT64)
      modifies blockpool.Database()
      ensures blockpool.Valid()
      ensures old(initialSyncCompleted) || !hasBootstrapPeer ==> ok && blockpool.Contents() == old(blockpool.Contents())
      ensures !old(initialSyncCompleted) && hasBootstrapPeer ==>
              && (ok <==> Reachable(OwnHeight(old(blockpool.Contents())), remote, down))
              && blockpool.Contents() == if ok then Synced(old(blockpool.Contents()), remote, checks) else old(blockpool.Contents())
    {
      hide BlockChain.Valid, BlockChain.Contents, BlockChain.Database, Synced, Reachable;
      if initialSyncCompleted { return true; }
      if !hasBootstrapPeer { return true; }
      ok := SyncWithPeer(remote, down, checks);
    }

    method Fetch(remote: Chain, down: set<nat>) returns (received: Option<seq<Block>>)
      requires blockpool.Valid() && (remote.latest.Some? ==> remote.latest.value < MAX_UINT64)
      ensures blockpool.Valid() && blockpool.Contents() == old(blockpool.Contents())
      ensures received.Some? <==> Reachable(OwnHeight(blockpool.Contents()), remote, down)
      ensures received.Some? ==> received.value == Present(remote, OwnHeight(blockpool.Contents()) + 1, remote.latest.value)
    {
      hide BlockChain.Valid, BlockChain.Contents, Present, Reachable;
      assert allocated(blockpool.Database());
      var ourLastHeight := blockpool.GetLatestBlockHeight();
      received := FetchAbove(if ourLastHeight.None? then 0 else ourLastHeight.value, remote, down);
    }

    method SyncWithPeer(remote: Chain, down: set<nat>, checks: Checks) returns (ok: bool)
      requires blockpool.Valid() && (remote.latest.Some? ==> remote.latest.value < MAX_UINT64)
      modifies blockpool.Database()
      ensures blockpool.Valid()
      ensures ok <==> Reachable(OwnHeight(old(blockpool.Contents())), remote, down)
      ensures blockpool.Contents() == if ok then Synced(old(blockpool.Contents()), remote, checks) else old(blockpool.Contents())
    {
      hide BlockChain.Valid, BlockChain.Contents, BlockChain.Database, Present, Reachable, ProcessAll;
      var received := Fetch(remote, down);
      if received.None? { return false; }
      ProcessReceived(received.value, checks);
      ok := true;
    }

    method ProcessReceived(bs: seq<Block>, checks: Checks)
      requires blockpool.Valid()
      modifies blockpool.Database()
      ensures blockpool.Valid() && blockpool.Contents() == ProcessAll(old(blockpool.Contents()), bs, checks)
    {
      hide BlockChain.Valid, BlockChain.Contents, BlockChain.Database, ProcessReceivedBlock;
      for k := 0 to |bs|
        invariant blockpool.Valid()
        invariant blockpool.Contents() == ProcessAll(old(blockpool.Contents()), bs[..k], checks)
      {
        assert bs[..k + 1][..k] == bs[..k];
        var _ := Process(bs[k], checks);
      }
      assert bs[..|bs|] == bs;
    }
  }

  // ----- what a synchronised node ends up with -----

  /** c holds the lowest blocks of s, and both are gap-free. */
  ghost predicate IsPrefix(c: Chain, s: Chain) {
    && NoGaps(c) && NoGaps(s) && Next(c) <= Next(s)
    && forall n <- c.byHeight :: n in s.byHeight && c.byHeight[n] == s.byHeight[n]
  }

  /** The next block of s is new to c and names c's last block. */
  lemma NextBlockFits(c: Chain, s: Chain)
    requires IsPrefix(c, s) && 0 < Next(c) < Next(s)
    ensures Next(c) in s.byHeight
    ensures var b := s.byHeight[Next(c)];
            b.header.height == Next(c) && b.header.hash !in c.blocks && Links(c, b)
            && BlockAt(c, Next(c) - 1).Some? && b.header.lastHash == BlockAt(c, Next(c) - 1).value.header.hash
  {
    var b := s.byHeight[Next(c)];
    assert Linked(s, Next(c));
  }

  lemma NextExtends(c: Chain, s: Chain, valid: bool)
    requires IsPrefix(c, s) && 0 < Next(c) < Next(s) && Next(c) in s.byHeight
    requires Stores(c, s.byHeight[Next(c)], valid)
    ensures IsPrefix(Store(c, s.byHeight[Next(c)], valid).value, s)
    ensures Next(Store(c, s.byHeight[Next(c)], valid).value) == Next(c) + 1
  {
    hide NoGaps, Store;
    NoGapsFacts(s);
    NextKeepsNoGaps(c, s.byHeight[Next(c)], valid);
    StoreParts(c, s.byHeight[Next(c)], valid);
  }

  /** A block of s at height m leaves a prefix of s a prefix of s, and lengthens it if it is the next and passes. */
  lemma ProcessKeepsPrefix(c: Chain, s: Chain, m: Uint64, checks: Checks)
    requires IsPrefix(c, s) && 0 < Next(c) && 0 < m && m in s.byHeight
    ensures var c', b := ProcessOne(c, s.byHeight[m], checks), s.byHeight[m];
            && IsPrefix(c', s)
            && Next(c') == if m == Next(c) && b in checks.verified && b in checks.valid then Next(c) + 1 else Next(c)
  {
    hide NoGaps, Store;
    IsPrefixFacts(c, s);
    var b := s.byHeight[m];
    if m == Next(c) {
      NextBlockFits(c, s);
      if Stores(c, b, b in checks.valid) { NextExtends(c, s, b in checks.valid); }
      StoreNew(c, b, b in checks.valid);
    } else if m < Next(c) {
      StoreKnown(c, b, b in checks.valid);
    }
  }

  lemma IsPrefixFacts(c: Chain, s: Chain)
    requires IsPrefix(c, s)
    ensures forall n: Uint64 :: n in c.byHeight <==> n < Next(c)
    ensures forall n: Uint64 :: n in s.byHeight <==> n < Next(s)
    ensures forall n <- s.byHeight :: s.byHeight[n].header.height == n
    ensures forall n <- c.byHeight :: s.byHeight[n].header.hash in c.blocks
  {
    NoGapsFacts(c);
    NoGapsFacts(s);
  }

  lemma StoreNew(c: Chain, b: Block, valid: bool)
    requires b.header.hash !in c.blocks && b.header.height != 0 && Links(c, b)
    ensures Store(c, b, valid).Some? <==> valid
  {
  }

  lemma StoreKnown(c: Chain, b: Block, valid: bool)
    requires b.header.hash in c.blocks
    ensures Store(c, b, valid) == Some(c)
  {
  }

  lemma {:induction false} ProcessRange(c: Chain, s: Chain, lo: nat, hi: int, checks: Checks)
    requires IsPrefix(c, s) && 0 < Next(c) && 0 < lo && hi < Next(s) && hi <= MAX_UINT64
    ensures IsPrefix(ProcessAll(c, Present(s, lo, hi), checks), s)
    ensures Next(c) <= Next(ProcessAll(c, Present(s, lo, hi), checks))
    ensures lo == Next(c) && lo <= hi + 1 && (forall b <- s.blocks.Values :: b in checks.verified && b in checks.valid) ==>
            Next(ProcessAll(c, Present(s, lo, hi), checks)) == hi + 1
    decreases hi - lo + 1
  {
    hide IsPrefix, ProcessOne;
    if lo <= hi {
      ProcessRange(c, s, lo, hi - 1, checks);
      BlockOfPrefix(c, s, hi);
      var before := Present(s, lo, hi - 1);
      assert Present(s, lo, hi)[..|before|] == before;
      ProcessKeepsPrefix(ProcessAll(c, before, checks), s, hi, checks);
    }
  }

  lemma BlockOfPrefix(c: Chain, s: Chain, n: Uint64)
    requires IsPrefix(c, s) && n < Next(s)
    ensures n in s.byHeight && s.byHeight[n] in s.blocks.Values
  {
    NoGapsFacts(s);
    assert s.byHeight[n].header.hash in s.blocks;
  }

  lemma PrefixShorter(c: Chain, s: Chain)
    requires IsPrefix(c, s)
    ensures Next(c) <= Next(s)
  {
  }

  /** A prefix as long as the whole is the whole. */
  lemma FullPrefix(c: Chain, s: Chain)
    requires IsPrefix(c, s) && Next(c) == Next(s)
    ensures c == s
  {
    NoGapsFacts(c);
    NoGapsFacts(s);
    assert c.byHeight == s.byHeight;
    forall h: Hash ensures h in c.blocks <==> h in s.blocks {
      if h in c.blocks { assert c.byHeight[c.blocks[h].header.height].header.hash == h; }
      if h in s.blocks { assert s.byHeight[s.blocks[h].header.height].header.hash == h; }
    }
    forall h <- c.blocks ensures c.blocks[h] == s.blocks[h] {
      assert c.byHeight[c.blocks[h].header.height].header.hash == h;
    }
    assert c.blocks == s.blocks;
  }

  /** A node that holds a non-empty prefix of a gap-free remote chain holds one after synchronising, whichever
      blocks fail their checks; and if none fails it holds exactly the remote chain. */
  lemma SyncedIsPrefix(c: Chain, remote: Chain, checks: Checks)
    requires IsPrefix(c, remote) && c.latest.Some? && remote.latest.Some?
    ensures IsPrefix(Synced(c, remote, checks), remote) && Next(c) <= Next(Synced(c, remote, checks))
    ensures (forall b <- remote.blocks.Values :: b in checks.verified && b in checks.valid) ==> Synced(c, remote, checks) == remote
  {
    hide IsPrefix, Present, ProcessAll;
    PrefixShorter(c, remote);
    ProcessRange(c, remote, OwnHeight(c) + 1, remote.latest.value, checks);
    if Next(Synced(c, remote, checks)) == Next(remote) { FullPrefix(Synced(c, remote, checks), remote); }
  }

  /** A node without a genesis block learns nothing: it asks from height 1 on, and every block lacks its predecessor. */
  lemma {:induction false} EmptyStaysEmpty(bs: seq<Block>, checks: Checks)
    requires forall b :: b in bs ==> b.header.height > 0
    ensures ProcessAll(EMPTY, bs, checks) == EMPTY
  {
    if bs != [] {
      assert bs[|bs| - 1] in bs;
      EmptyStaysEmpty(bs[..|bs| - 1], checks);
    }
  }
}
