/** The LMDB and the memory database: one flat key space each, behind the same interface. */
module Databases {
  import opened Common
  import opened Blocks
  import opened Chain
  import opened KeyEncoding

  // ----- LMDB: headers and data by hash, and an index from heights to hashes -----

  /** CBOR is taken to give back what it was given, so encoded blocks are kept as values. */
  datatype Value = DataValue(data: seq<Transaction>) | HeaderValue(header: Header) | BytesValue(bytes: seq<Byte>)

  datatype Lmdb = Lmdb(blocks: map<Hash, Block>, index: map<Uint64, Hash>, latest: Option<Uint64>)

  const NO_RECORDS: Lmdb := Lmdb(map[], map[], None)

  function LmdbPut(s: Lmdb, b: Block): Lmdb {
    s.(blocks := s.blocks[b.header.hash := b], index := s.index[b.header.height := b.header.hash])
  }

  /** The blocks an LMDB database answers with: those found through the index. */
  function Observed(s: Lmdb): Chain {
    Chain(s.blocks, map n | n in s.index && s.index[n] in s.blocks :: s.blocks[s.index[n]], s.latest)
  }

  predicate HashOk(db: map<string, Value>, s: Lmdb, h: Hash) {
    && (DataKey(h) in db <==> h in s.blocks) && (HeaderKey(h) in db <==> h in s.blocks)
    && (h in s.blocks ==> db[DataKey(h)] == DataValue(s.blocks[h].data) && db[HeaderKey(h)] == HeaderValue(s.blocks[h].header))
  }

  predicate HeightOk(db: map<string, Value>, s: Lmdb, n: Uint64) {
    && (HeightKey(n) in db <==> n in s.index)
    && (n in s.index ==> db[HeightKey(n)] == BytesValue(s.index[n]) && s.index[n] in s.blocks)
  }

  predicate LatestOk(db: map<string, Value>, s: Lmdb) {
    && (LatestKey() in db <==> s.latest.Some?)
    && (s.latest.Some? ==> db[LatestKey()] == BytesValue(HeightBytes(s.latest.value)))
  }

  ghost predicate Represents(db: map<string, Value>, s: Lmdb) {
    (forall h: Hash :: HashOk(db, s, h)) && (forall n: Uint64 :: HeightOk(db, s, n)) && LatestOk(db, s)
  }

  lemma EmptyRepresents()
    ensures Represents(map[], NO_RECORDS) && Observed(NO_RECORDS) == EMPTY
  {
    hide DataKey, HeaderKey, HeightKey, LatestKey;
  }

  /** The three writes of StoreBlock. */
  function PutEntries(db: map<string, Value>, b: Block): map<string, Value> {
    db[DataKey(b.header.hash) := DataValue(b.data)]
      [HeaderKey(b.header.hash) := HeaderValue(b.header)]
      [HeightKey(b.header.height) := BytesValue(b.header.hash)]
  }

  lemma PutByHash(db: map<string, Value>, b: Block, h: Hash)
    ensures var db' := PutEntries(db, b);
            if h == b.header.hash then
              && DataKey(h) in db' && db'[DataKey(h)] == DataValue(b.data)
              && HeaderKey(h) in db' && db'[HeaderKey(h)] == HeaderValue(b.header)
            else
              && (DataKey(h) in db' <==> DataKey(h) in db) && (DataKey(h) in db ==> db'[DataKey(h)] == db[DataKey(h)])
              && (HeaderKey(h) in db' <==> HeaderKey(h) in db) && (HeaderKey(h) in db ==> db'[HeaderKey(h)] == db[HeaderKey(h)])
  {
    hide DataKey, HeaderKey, HeightKey, LatestKey;
    LmdbKeysDistinct(h, b.header.hash, b.header.height, b.header.height);
    LmdbKeysDistinct(b.header.hash, h, b.header.height, b.header.height);
  }

  lemma PutByHeight(db: map<string, Value>, b: Block, n: Uint64)
    ensures var db' := PutEntries(db, b);
            if n == b.header.height then HeightKey(n) in db' && db'[HeightKey(n)] == BytesValue(b.header.hash)
            else (HeightKey(n) in db' <==> HeightKey(n) in db) && (HeightKey(n) in db ==> db'[HeightKey(n)] == db[HeightKey(n)])
    ensures LatestKey() in PutEntries(db, b) <==> LatestKey() in db
    ensures LatestKey() in db ==> PutEntries(db, b)[LatestKey()] == db[LatestKey()]
  {
    hide DataKey, HeaderKey, HeightKey, LatestKey;
    LmdbKeysDistinct(b.header.hash, b.header.hash, b.header.height, n);
  }

  lemma PutRepresents(db: map<string, Value>, s: Lmdb, b: Block)
    requires Represents(db, s)
    ensures Represents(PutEntries(db, b), LmdbPut(s, b))
  {
    hide PutEntries, DataKey, HeaderKey, HeightKey, LatestKey, HeightBytes;
    var db', s' := PutEntries(db, b), LmdbPut(s, b);
    forall h: Hash ensures HashOk(db', s', h) {
      assert HashOk(db, s, h);
      PutByHash(db, b, h);
    }
    forall n: Uint64 ensures HeightOk(db', s', n) {
      assert HeightOk(db, s, n);
      PutByHeight(db, b, n);
    }
    PutByHeight(db, b, b.header.height);
  }

  lemma LatestRepresents(db: map<string, Value>, s: Lmdb, height: Uint64)
    requires Represents(db, s)
    ensures Represents(db[LatestKey() := BytesValue(HeightBytes(height))], s.(latest := Some(height)))
  {
    hide DataKey, HeaderKey, HeightKey, LatestKey, HeightBytes;
    var db', s' := db[LatestKey() := BytesValue(HeightBytes(height))], s.(latest := Some(height));
    forall h: Hash ensures HashOk(db', s', h) {
      assert HashOk(db, s, h);
      LmdbKeysDistinct(h, h, height, height);
    }
    forall n: Uint64 ensures HeightOk(db', s', n) {
      assert HeightOk(db, s, n);
      LmdbKeysDistinct([], [], n, n);
    }
  }

  class LmdbDatabase {
    var db: map<string, Value>
    ghost var state: Lmdb

    ghost predicate Valid()
      reads this
    {
      Represents(db, state)
    }

    ghost function Contents(): Chain
      reads this
    {
      Observed(state)
    }

    constructor ()
      ensures Valid() && Contents() == EMPTY
    {
      hide Represents, Observed;
      db, state := map[], NO_RECORDS;
      new;
      EmptyRepresents();
    }

    method StoreBlock(block: Block)
      requires Valid()
      modifies this
      ensures Valid() && state == LmdbPut(old(state), block)
    {
      hide Represents, DataKey, HeaderKey, HeightKey;
      PutRepresents(db, state, block);
      var hash := block.header.hash;
      db := db[DataKey(hash) := DataValue(block.data)];
      db := db[HeaderKey(hash) := HeaderValue(block.header)];
      db := db[HeightKey(block.header.height) := BytesValue(hash)];
      state := LmdbPut(state, block);
    }

    predicate HasBlock(blockHash: Hash)
      reads this
      requires Valid()
      ensures HasBlock(blockHash) <==> blockHash in Contents().blocks
    {
      assert HashOk(db, state, blockHash);
      HeaderKey(blockHash) in db
    }

    function FetchBlockData(blockHash: Hash): (r: Option<seq<Transaction>>)
      reads this
      requires Valid()
      ensures r == if blockHash in Contents().blocks then Some(Contents().blocks[blockHash].data) else None
    {
      assert HashOk(db, state, blockHash);
      if DataKey(blockHash) !in db then None else Some(db[DataKey(blockHash)].data)
    }

    function FetchBlockHeader(blockHash: Hash): (r: Option<Header>)
      reads this
      requires Valid()
      ensures r == if blockHash in Contents().blocks then Some(Contents().blocks[blockHash].header) else None
    {
      assert HashOk(db, state, blockHash);
      if HeaderKey(blockHash) !in db then None else Some(db[HeaderKey(blockHash)].header)
    }

    function FetchBlock(blockHash: Hash): (r: Option<Block>)
      reads this
      requires Valid()
      ensures r == if blockHash in Contents().blocks then Some(Contents().blocks[blockHash]) else None
    {
      var header, data := FetchBlockHeader(blockHash), FetchBlockData(blockHash);
      if header.None? || data.None? then None else Some(Block(header.value, data.value))
    }

    function FetchBlockByHeight(height: Uint64): (r: Option<Block>)
      reads this
      requires Valid()
      ensures r == BlockAt(Contents(), height)
    {
      assert HeightOk(db, state, height);
      if HeightKey(height) !in db then None else FetchBlock(db[HeightKey(height)].bytes)
    }

    function FetchBlockHeaderByHeight(height: Uint64): (r: Option<Header>)
      reads this
      requires Valid()
      ensures r == match BlockAt(Contents(), height) case None => None case Some(b) => Some(b.header)
    {
      assert HeightOk(db, state, height);
      if HeightKey(height) !in db then None else FetchBlockHeader(db[HeightKey(height)].bytes)
    }

    function GetLatestBlockHeight(): (r: Option<Uint64>)
      reads this
      requires Valid()
      ensures r == Contents().latest
    {
      if LatestKey() !in db then None
      else
        HeightRoundTrip(state.latest.value);
        Some(FromLittleEndian(db[LatestKey()].bytes))
    }

    method SetLatestBlockHeight(height: Uint64)
      requires Valid()
      modifies this
      ensures Valid() && state == old(state).(latest := Some(height))
    {
      hide Represents, LatestKey, HeightBytes;
      LatestRepresents(db, state, height);
      db := db[LatestKey() := BytesValue(HeightBytes(height))];
      state := state.(latest := Some(height));
    }
  }

  // ----- memory: whole blocks by hash and by height -----

  datatype Item = BlockItem(block: Block) | HeightItem(height: Uint64)

  predicate HashHeld(db: map<string, Item>, c: Chain, h: Hash) {
    (Hex(h) in db <==> h in c.blocks) && (h in c.blocks ==> db[Hex(h)] == BlockItem(c.blocks[h]))
  }

  predicate HeightHeld(db: map<string, Item>, c: Chain, n: Uint64) {
    && (MemoryHeightKey(n) in db <==> n in c.byHeight)
    && (n in c.byHeight ==> db[MemoryHeightKey(n)] == BlockItem(c.byHeight[n]))
  }

  predicate LatestHeld(db: map<string, Item>, c: Chain) {
    && (MEMORY_LATEST_KEY in db <==> c.latest.Some?)
    && (c.latest.Some? ==> db[MEMORY_LATEST_KEY] == HeightItem(c.latest.value))
  }

  ghost predicate Holds(db: map<string, Item>, c: Chain) {
    (forall h: Hash :: HashHeld(db, c, h)) && (forall n: Uint64 :: HeightHeld(db, c, n)) && LatestHeld(db, c)
  }

  function PutItems(db: map<string, Item>, b: Block): map<string, Item> {
    db[Hex(b.header.hash) := BlockItem(b)][MemoryHeightKey(b.header.height) := BlockItem(b)]
  }

  lemma PutHolds(db: map<string, Item>, c: Chain, b: Block)
    requires Holds(db, c)
    ensures Holds(PutItems(db, b), Put(c, b))
  {
    hide Hex, MemoryHeightKey;
    var db', c', hash, height := PutItems(db, b), Put(c, b), b.header.hash, b.header.height;
    forall h: Hash ensures HashHeld(db', c', h) {
      assert HashHeld(db, c, h);
      MemoryKeysDistinct(h, hash, height, height);
    }
    forall n: Uint64 ensures HeightHeld(db', c', n) {
      assert HeightHeld(db, c, n);
      MemoryKeysDistinct(hash, hash, height, n);
      MemoryKeysDistinct(hash, hash, n, height);
    }
    MemoryKeysDistinct(hash, hash, height, height);
  }

  lemma LatestHolds(db: map<string, Item>, c: Chain, height: Uint64)
    requires Holds(db, c)
    ensures Holds(db[MEMORY_LATEST_KEY := HeightItem(height)], c.(latest := Some(height)))
  {
    hide Hex, MemoryHeightKey, MEMORY_LATEST_KEY;
    var db', c' := db[MEMORY_LATEST_KEY := HeightItem(height)], c.(latest := Some(height));
    forall h: Hash ensures HashHeld(db', c', h) {
      assert HashHeld(db, c, h);
      MemoryKeysDistinct(h, h, height, height);
    }
    forall n: Uint64 ensures HeightHeld(db', c', n) {
      assert HeightHeld(db, c, n);
      MemoryKeysDistinct([], [], n, n);
    }
  }

  class MemoryDatabase {
    var db: map<string, Item>
    ghost var contents: Chain

    ghost predicate Valid()
      reads this
    {
      Holds(db, contents)
    }

    ghost function Contents(): Chain
      reads this
    {
      contents
    }

    constructor ()
      ensures Valid() && Contents() == EMPTY
    {
      db, contents := map[], EMPTY;
    }

    method StoreBlock(block: Block)
      requires Valid()
      modifies this
      ensures Valid() && Contents() == Put(old(Contents()), block)
    {
      hide Holds, Hex, MemoryHeightKey;
      PutHolds(db, contents, block);
      db := db[Hex(block.header.hash) := BlockItem(block)];
      db := db[MemoryHeightKey(block.header.height) := BlockItem(block)];
      contents := Put(contents, block);
    }

    predicate HasBlock(blockHash: Hash)
      reads this
      requires Valid()
      ensures HasBlock(blockHash) <==> blockHash in Contents().blocks
    {
      assert HashHeld(db, contents, blockHash);
      Hex(blockHash) in db
    }

    function FetchBlock(blockHash: Hash): (r: Option<Block>)
      reads this
      requires Valid()
      ensures r == if blockHash in Contents().blocks then Some(Contents().blocks[blockHash]) else None
    {
      assert HashHeld(db, contents, blockHash);
      if Hex(blockHash) !in db then None else Some(db[Hex(blockHash)].block)
    }

    function FetchBlockData(blockHash: Hash): (r: Option<seq<Transaction>>)
      reads this
      requires Valid()
      ensures r == if blockHash in Contents().blocks then Some(Contents().blocks[blockHash].data) else None
    {
      match FetchBlock(blockHash) case None => None case Some(b) => Some(b.data)
    }

    function FetchBlockHeader(blockHash: Hash): (r: Option<Header>)
      reads this
      requires Valid()
      ensures r == if blockHash in Contents().blocks then Some(Contents().blocks[blockHash].header) else None
    {
      match FetchBlock(blockHash) case None => None case Some(b) => Some(b.header)
    }

    function FetchBlockByHeight(height: Uint64): (r: Option<Block>)
      reads this
      requires Valid()
      ensures r == BlockAt(Contents(), height)
    {
      assert HeightHeld(db, contents, height);
      if MemoryHeightKey(height) !in db then None else Some(db[MemoryHeightKey(height)].block)
    }

    function FetchBlockHeaderByHeight(height: Uint64): (r: Option<Header>)
      reads this
      requires Valid()
      ensures r == match BlockAt(Contents(), height) case None => None case Some(b) => Some(b.header)
    {
      assert HeightHeld(db, contents, height);
      if MemoryHeightKey(height) !in db then None else Some(db[MemoryHeightKey(height)].block.header)
    }

    function GetLatestBlockHeight(): (r: Option<Uint64>)
      reads this
      requires Valid()
      ensures r == Contents().latest
    {
      if MEMORY_LATEST_KEY !in db then None else Some(db[MEMORY_LATEST_KEY].height)
    }

    method SetLatestBlockHeight(height: Uint64)
      requires Valid()
      modifies this
      ensures Valid() && Contents() == old(Contents()).(latest := Some(height))
    {
      hide Holds;
      LatestHolds(db, contents, height);
      db := db[MEMORY_LATEST_KEY := HeightItem(height)];
      contents := contents.(latest := Some(height));
    }
  }

  // ----- the two databases side by side -----

  ghost predicate IndexHit(s: Lmdb) {
    forall n <- s.index :: s.index[n] in s.blocks
  }

  lemma RepresentsIndexHit(db: map<string, Value>, s: Lmdb)
    requires Represents(db, s)
    ensures IndexHit(s)
  {
    forall n <- s.index ensures s.index[n] in s.blocks { assert HeightOk(db, s, n); }
  }

  /** A block whose hash is new is seen the same way in both. */
  lemma FreshPutObserved(s: Lmdb, b: Block)
    requires b.header.hash !in s.blocks && IndexHit(s)
    ensures Observed(LmdbPut(s, b)) == Put(Observed(s), b)
  {
    var s' := LmdbPut(s, b);
    forall n <- s'.index ensures Observed(s').byHeight[n] == Put(Observed(s), b).byHeight[n] {}
    assert Observed(s').byHeight == Put(Observed(s), b).byHeight;
  }

  /** Writing a block into both databases keeps their answers equal exactly when no other height is indexed to the
      same hash with a different block: LMDB then changes what that height answers, memory does not. */
  lemma PutsAgreeIff(s: Lmdb, b: Block)
    requires IndexHit(s)
    ensures Observed(LmdbPut(s, b)) == Put(Observed(s), b) <==>
            forall n <- s.index :: n != b.header.height && s.index[n] == b.header.hash ==> s.blocks[s.index[n]] == b
  {
    var s' := LmdbPut(s, b);
    var left, right := Observed(s').byHeight, Put(Observed(s), b).byHeight;
    assert left.Keys == right.Keys;
    forall n <- s.index | n != b.header.height
      ensures left[n] == (if s.index[n] == b.header.hash then b else s.blocks[s.index[n]]) && right[n] == s.blocks[s.index[n]]
    {}
    assert left[b.header.height] == right[b.header.height] == b;
    if forall n <- s.index :: n != b.header.height && s.index[n] == b.header.hash ==> s.blocks[s.index[n]] == b {
      forall n <- left ensures left[n] == right[n] {}
      assert left == right;
    }
    if left == right {
      forall n <- s.index | n != b.header.height && s.index[n] == b.header.hash
        ensures s.blocks[s.index[n]] == b
      {
        assert left[n] == right[n];
      }
    }
  }

  /** So without the once-per-hash guard of the chain the two databases can drift apart. */
  lemma UnguardedPutsDisagree(b: Block, b': Block)
    requires b.header.hash == b'.header.hash && b.header.height != b'.header.height
    ensures var s := LmdbPut(NO_RECORDS, b);
            Observed(LmdbPut(s, b')) != Put(Observed(s), b')
  {
    var s := LmdbPut(NO_RECORDS, b);
    assert b.header.height in s.index;
    PutsAgreeIff(s, b');
  }
}
