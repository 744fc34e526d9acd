/** BlockChain over either database. */
module BlockChain {
  import opened Common
  import opened Blocks
  import opened Chain
  import opened Databases

  /** The database interface has these two implementations. */
  datatype Backend = LmdbBackend(lmdb: LmdbDatabase) | MemoryBackend(memory: MemoryDatabase)

  function HeaderOf(b: Option<Block>): Option<Header> {
    match b case None => None case Some(block) => Some(block.header)
  }

  class BlockChain {
    const db: Backend

    ghost function Database(): object {
      match db case LmdbBackend(lmdb) => lmdb case MemoryBackend(memory) => memory
    }

    ghost predicate Valid()
      reads Database()
    {
      match db case LmdbBackend(lmdb) => lmdb.Valid() case MemoryBackend(memory) => memory.Valid()
    }

    ghost function Contents(): Chain
      reads Database()
    {
      match db case LmdbBackend(lmdb) => lmdb.Contents() case MemoryBackend(memory) => memory.Contents()
    }

    constructor (db: Backend)
      ensures this.db == db
    {
      this.db := db;
    }

    function GetLatestBlockHeight(): (r: Option<Uint64>)
      reads Database()
      requires Valid()
      ensures r == Contents().latest
    {
      match db
      case LmdbBackend(lmdb) => lmdb.GetLatestBlockHeight()
      case MemoryBackend(memory) => memory.GetLatestBlockHeight()
    }

    predicate HasBlock(blockHash: Hash)
      reads Database()
      requires Valid()
      ensures HasBlock(blockHash) <==> blockHash in Contents().blocks
    {
      match db
      case LmdbBackend(lmdb) => lmdb.HasBlock(blockHash)
      case MemoryBackend(memory) => memory.HasBlock(blockHash)
    }

    function FetchBlock(blockHash: Hash): (r: Option<Block>)
      reads Database()
      requires Valid()
      ensures r == if blockHash in Contents().blocks then Some(Contents().blocks[blockHash]) else None
    {
      match db
      case LmdbBackend(lmdb) => lmdb.FetchBlock(blockHash)
      case MemoryBackend(memory) => memory.FetchBlock(blockHash)
    }

    function FetchBlockByHeight(height: Uint64): (r: Option<Block>)
      reads Database()
      requires Valid()
      ensures r == BlockAt(Contents(), height)
    {
      match db
      case LmdbBackend(lmdb) => lmdb.FetchBlockByHeight(height)
      case MemoryBackend(memory) => memory.FetchBlockByHeight(height)
    }

    function FetchBlockHeaderByHeight(height: Uint64): (r: Option<Header>)
      reads Database()
      requires Valid()
      ensures r == HeaderOf(BlockAt(Contents(), height))
    {
      match db
      case LmdbBackend(lmdb) => lmdb.FetchBlockHeaderByHeight(height)
      case MemoryBackend(memory) => memory.FetchBlockHeaderByHeight(height)
    }

    /** The signature, merkle, election and transaction checks are summed up in `otherChecks`. */
    predicate ValidateBlock(block: Block, otherChecks: bool)
      reads Database()
      requires Valid()
      ensures ValidateBlock(block, otherChecks) <==> otherChecks && Links(Contents(), block)
    {
      hide Valid, Contents;
      && otherChecks
      && GetLatestBlockHeight().Some?
      && FetchBlockHeaderByHeight(GetLatestBlockHeight().value).Some?
      && block.header.lastHash == FetchBlockHeaderByHeight(GetLatestBlockHeight().value).value.hash
    }

    /** Only a block with a new hash may be written: that is what makes the two databases answer alike. */
    method Write(block: Block)
      requires Valid() && block.header.hash !in Contents().blocks
      modifies Database()
      ensures Valid() && Contents() == Put(old(Contents()), block)
    {
      hide Represents, Holds, Observed, LmdbPut;
      match db
      case LmdbBackend(lmdb) =>
        ObservedBlocks(lmdb.state);
        RepresentsIndexHit(lmdb.db, lmdb.state);
        FreshPutObserved(lmdb.state, block);
        lmdb.StoreBlock(block);
      case MemoryBackend(memory) => memory.StoreBlock(block);
    }

    method Raise(height: Uint64)
      requires Valid()
      modifies Database()
      ensures Valid() && Contents() == old(Contents()).(latest := Some(height))
    {
      match db
      case LmdbBackend(lmdb) => lmdb.SetLatestBlockHeight(height);
      case MemoryBackend(memory) => memory.SetLatestBlockHeight(height);
    }

    method StoreBlock(block: Block, otherChecks: bool) returns (ok: bool)
      requires Valid()
      modifies Database()
      ensures Valid()
      ensures ok <==> Store(old(Contents()), block, otherChecks).Some?
      ensures Contents() == if ok then Store(old(Contents()), block, otherChecks).value else old(Contents())
    {
      hide Valid, Contents, Represents, Holds, Observed, Links;
      if HasBlock(block.header.hash) { return true; }
      if block.header.height != 0 && !ValidateBlock(block, otherChecks) { return false; }
      Write(block);
      var height := GetLatestBlockHeight();
      if height.None? || block.header.height > height.value { Raise(block.header.height); }
      ok := true;
    }

    /** Any sequence of StoreBlock calls: what is answered afterwards does not depend on the database. */
    method StoreAll(inputs: seq<Input>)
      requires Valid()
      modifies Database()
      ensures Valid() && Contents() == At(old(Contents()), inputs, |inputs|)
    {
      hide Store;
      for i := 0 to |inputs|
        invariant Valid() && Contents() == At(old(Contents()), inputs, i)
      {
        var _ := StoreBlock(inputs[i].block, inputs[i].valid);
      }
    }
  }

  lemma ObservedBlocks(s: Lmdb)
    ensures Observed(s).blocks == s.blocks
  {
  }

  /** An LMDB and a memory database that see the same StoreBlock calls give the same answers. */
  method Replay(inputs: seq<Input>) returns (onDisk: BlockChain, inMemory: BlockChain)
    ensures onDisk.db.LmdbBackend? && inMemory.db.MemoryBackend?
    ensures onDisk.Valid() && inMemory.Valid()
    ensures onDisk.Contents() == inMemory.Contents() == At(EMPTY, inputs, |inputs|)
    ensures Consistent(onDisk.Contents())
  {
    hide Represents, Holds, Observed, Consistent, At;
    var lmdb := new LmdbDatabase();
    var memory := new MemoryDatabase();
    onDisk := new BlockChain(LmdbBackend(lmdb));
    inMemory := new BlockChain(MemoryBackend(memory));
    onDisk.StoreAll(inputs);
    inMemory.StoreAll(inputs);
    ChainSound(inputs, |inputs|);
  }
}
