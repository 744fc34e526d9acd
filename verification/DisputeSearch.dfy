/** The dispute manager's backward search for a request. */
module DisputeSearch {
  import opened Common
  import opened Blocks
  import opened Chain
  import opened GapFree
  import opened BlockChain

  datatype Task = Task(originChain: nat, requestType: string, requestParams: string, payload: seq<Byte>, requestID: string)

  /** How transaction payloads decode: those that are not in the map are malformed. */
  type Decoding = map<seq<Byte>, Task>

  predicate Matches(tx: Transaction, requestID: string, decode: Decoding) {
    tx.data in decode && decode[tx.data].requestID == requestID
  }

  /** The first transaction from position i on that carries the request. */
  function FirstFrom(txs: seq<Transaction>, i: nat, requestID: string, decode: Decoding): Option<Task>
    requires i <= |txs|
    decreases |txs| - i
  {
    if i == |txs| then None
    else if Matches(txs[i], requestID, decode) then Some(decode[txs[i].data])
    else FirstFrom(txs, i + 1, requestID, decode)
  }

  function FirstIn(b: Block, requestID: string, decode: Decoding): Option<Task> {
    FirstFrom(b.data, 0, requestID, decode)
  }

  /** FirstFrom finds what a matching transaction carries before which none matches, and finds none only if none matches. */
  lemma {:induction false} FirstFromSpec(txs: seq<Transaction>, i: nat, requestID: string, decode: Decoding)
    requires i <= |txs|
    ensures match FirstFrom(txs, i, requestID, decode)
            case Some(task) =>
              && task.requestID == requestID
              && exists k :: && i <= k < |txs| && txs[k].data in decode && decode[txs[k].data] == task
                             && forall j :: i <= j < k && txs[j].data in decode ==> decode[txs[j].data].requestID != requestID
            case None => forall k :: i <= k < |txs| && txs[k].data in decode ==> decode[txs[k].data].requestID != requestID
    decreases |txs| - i
  {
    if i < |txs| && !Matches(txs[i], requestID, decode) {
      FirstFromSpec(txs, i + 1, requestID, decode);
    }
  }

  /** The search downwards from height n; below height 0 nothing is left. */
  function Search(c: Chain, n: int, requestID: string, decode: Decoding): Option<(Task, Block)>
    requires n <= MAX_UINT64
    decreases n + 1
  {
    if n < 0 || n !in c.byHeight then None
    else
      match FirstIn(c.byHeight[n], requestID, decode)
      case Some(task) => Some((task, c.byHeight[n]))
      case None => Search(c, n - 1, requestID, decode)
  }

  /** findTaskAndBlockWithRequestID. The height wraps around below 0; as no block has the greatest height, the
      fetch that follows fails and ends the search. */
  method FindTaskAndBlockWithRequestID(chain: BlockChain, requestID: string, decode: Decoding) returns (r: Option<(Task, Block)>)
    requires chain.Valid() && chain.FetchBlockByHeight(MAX_UINT64).None?
    ensures r == Found(chain.Contents(), requestID, decode)
  {
    hide BlockChain.Valid, BlockChain.Contents;
    var latest := chain.GetLatestBlockHeight();
    if latest.None? { return None; }
    var height: Uint64 := latest.value;
    ghost var left: int := height;
    while true
      invariant left == height || (left == -1 && height == MAX_UINT64)
      invariant left <= height
      invariant Search(chain.Contents(), latest.value, requestID, decode) == Search(chain.Contents(), left, requestID, decode)
      decreases left
    {
      var block := chain.FetchBlockByHeight(height);
      if block.None? { return None; }
      var txs := block.value.data;
      var i := 0;
      while i < |txs|
        invariant 0 <= i <= |txs|
        invariant FirstFrom(txs, 0, requestID, decode) == FirstFrom(txs, i, requestID, decode)
      {
        if txs[i].data in decode {
          var task := decode[txs[i].data];
          if task.requestID == requestID { return Some((task, block.value)); }
        }
        i := i + 1;
      }
      height := PreviousHeight(height);
      left := left - 1;
    }
  }

  /** In every chain: the block found has the first match, and no height from it up to the start lacks a block or
      has a match; nothing is found exactly if the heights above the highest missing one have no match. */
  lemma {:induction false} SearchSpec(c: Chain, n: int, requestID: string, decode: Decoding)
    requires n <= MAX_UINT64
    ensures match Search(c, n, requestID, decode)
            case Some((task, block)) =>
              exists k: Uint64 :: k <= n && k in c.byHeight && c.byHeight[k] == block
                                  && FirstIn(block, requestID, decode) == Some(task) && NoneAbove(c, k, n, requestID, decode)
            case None =>
              NoneAbove(c, -1, n, requestID, decode)
              || exists k: Uint64 :: k <= n && k !in c.byHeight && NoneAbove(c, k, n, requestID, decode)
    decreases n + 1
  {
    hide FirstIn, NoneAbove;
    NoneAboveEmpty(c, n, requestID, decode);
    if 0 <= n && n in c.byHeight && FirstIn(c.byHeight[n], requestID, decode).None? {
      SearchSpec(c, n - 1, requestID, decode);
      forall k: int | -1 <= k < n && NoneAbove(c, k, n - 1, requestID, decode) ensures NoneAbove(c, k, n, requestID, decode) {
        NoneAboveStep(c, k, n, requestID, decode);
      }
    }
  }

  /** All heights above k up to n have a block, and none of them has a match. */
  ghost predicate NoneAbove(c: Chain, k: int, n: int, requestID: string, decode: Decoding)
    requires -1 <= k && n <= MAX_UINT64
  {
    forall m: Uint64 :: k < m <= n ==> m in c.byHeight && FirstIn(c.byHeight[m], requestID, decode).None?
  }

  lemma NoneAboveEmpty(c: Chain, n: int, requestID: string, decode: Decoding)
    requires n <= MAX_UINT64
    ensures n >= -1 ==> NoneAbove(c, n, n, requestID, decode)
    ensures n < 0 ==> NoneAbove(c, -1, n, requestID, decode)
  {
  }

  lemma NoneAboveStep(c: Chain, k: int, n: Uint64, requestID: string, decode: Decoding)
    requires -1 <= k && NoneAbove(c, k, n - 1, requestID, decode)
    requires n in c.byHeight && FirstIn(c.byHeight[n], requestID, decode).None?
    ensures NoneAbove(c, k, n, requestID, decode)
  {
    hide FirstIn;
  }

  function Found(c: Chain, requestID: string, decode: Decoding): Option<(Task, Block)> {
    match c.latest case None => None case Some(n) => Search(c, n, requestID, decode)
  }

  /** On a gap-free chain the search finds the highest block with a match and the first match in it, and it finds
      nothing exactly if no stored block has a match. If the chain is not full, its loop ends. */
  lemma SearchGapFree(c: Chain, requestID: string, decode: Decoding)
    requires NoGaps(c)
    ensures match Found(c, requestID, decode)
            case Some((task, block)) =>
              && block.header.hash in c.blocks && c.blocks[block.header.hash] == block
              && FirstIn(block, requestID, decode) == Some(task)
              && forall h <- c.blocks :: FirstIn(c.blocks[h], requestID, decode).Some? ==> c.blocks[h].header.height <= block.header.height
            case None => forall h <- c.blocks :: FirstIn(c.blocks[h], requestID, decode).None?
    ensures Next(c) <= MAX_UINT64 ==> BlockAt(c, MAX_UINT64).None?
  {
    hide FirstIn, Search, Consistent, AllLinked;
    NoGapsFacts(c);
    if c.latest.Some? {
      SearchSpec(c, c.latest.value, requestID, decode);
      forall h <- c.blocks
        ensures c.blocks[h].header.height in c.byHeight && c.byHeight[c.blocks[h].header.height] == c.blocks[h]
      {
      }
    }
  }
}
