/** The flat keys of the two databases: no two entries share one. */
module KeyEncoding {
  import opened Common
  import opened Blocks
  import opened Chain

  // ----- hexadecimal -----

  function Digit(n: nat): char
    requires n < 16
  {
    if n < 10 then ('0' as int + n) as char else ('a' as int + (n - 10)) as char
  }

  function Hex(bs: seq<Byte>): string {
    if bs == [] then "" else [Digit(bs[0] / 16), Digit(bs[0] % 16)] + Hex(bs[1..])
  }

  lemma DigitInjective(m: nat, n: nat)
    requires m < 16 && n < 16 && Digit(m) == Digit(n)
    ensures m == n
  {
  }

  lemma {:induction false} HexInjective(a: seq<Byte>, b: seq<Byte>)
    requires Hex(a) == Hex(b)
    ensures a == b
  {
    hide Digit;
    HexLength(a);
    HexLength(b);
    if a != [] {
      var x, y := Hex(a), Hex(b);
      assert x[0] == Digit(a[0] / 16) && y[0] == Digit(b[0] / 16);
      assert x[1] == Digit(a[0] % 16) && y[1] == Digit(b[0] % 16);
      DigitInjective(a[0] / 16, b[0] / 16);
      DigitInjective(a[0] % 16, b[0] % 16);
      assert x[2..] == Hex(a[1..]) && y[2..] == Hex(b[1..]);
      HexInjective(a[1..], b[1..]);
      assert a == [a[0]] + a[1..] && b == [b[0]] + b[1..];
    }
  }

  lemma {:induction false} HexLength(bs: seq<Byte>)
    ensures |Hex(bs)| == 2 * |bs|
  {
    if bs != [] { HexLength(bs[1..]); }
  }

  lemma HexFirst(bs: seq<Byte>)
    requires bs != []
    ensures |Hex(bs)| > 0 && ('0' <= Hex(bs)[0] <= '9' || 'a' <= Hex(bs)[0] <= 'f')
  {
  }

  // ----- decimal, as printed by %d -----

  function Decimal(n: nat): string {
    if n < 10 then [Digit(n)] else Decimal(n / 10) + [Digit(n % 10)]
  }

  lemma {:induction false} DecimalInjective(m: nat, n: nat)
    requires Decimal(m) == Decimal(n)
    ensures m == n
    decreases m
  {
    hide Digit;
    var x, y := Decimal(m), Decimal(n);
    assert x[|x| - 1] == Digit(m % 10) && y[|y| - 1] == Digit(n % 10);
    DecimalNonEmpty(m / 10);
    DecimalNonEmpty(n / 10);
    DigitInjective(m % 10, n % 10);
    if m >= 10 && n >= 10 {
      assert x[..|x| - 1] == Decimal(m / 10) && y[..|y| - 1] == Decimal(n / 10);
      DecimalInjective(m / 10, n / 10);
    } else {
      assert |x| == 1 <==> m < 10;
      assert |y| == 1 <==> n < 10;
    }
  }

  lemma DecimalNonEmpty(n: nat)
    ensures |Decimal(n)| > 0
  {
  }

  // ----- little-endian -----

  function LittleEndian(n: nat, k: nat): seq<Byte> {
    if k == 0 then [] else [n % 256] + LittleEndian(n / 256, k - 1)
  }

  function FromLittleEndian(bs: seq<Byte>): nat {
    if bs == [] then 0 else bs[0] + 256 * FromLittleEndian(bs[1..])
  }

  function Pow256(k: nat): nat {
    if k == 0 then 1 else 256 * Pow256(k - 1)
  }

  lemma {:induction false} LittleEndianRoundTrip(n: nat, k: nat)
    requires n < Pow256(k)
    ensures |LittleEndian(n, k)| == k && FromLittleEndian(LittleEndian(n, k)) == n
  {
    if k > 0 {
      LittleEndianRoundTrip(n / 256, k - 1);
      assert LittleEndian(n, k)[1..] == LittleEndian(n / 256, k - 1);
    }
  }

  function HeightBytes(n: Uint64): seq<Byte> {
    LittleEndian(n, 8)
  }

  lemma HeightRoundTrip(n: Uint64)
    ensures |HeightBytes(n)| == 8 && FromLittleEndian(HeightBytes(n)) == n
  {
    assert Pow256(2) == 0x1_0000;
    assert Pow256(4) == 0x1_0000_0000;
    assert Pow256(6) == 0x1_0000_0000_0000;
    assert Pow256(8) == 0x1_0000_0000_0000_0000;
    LittleEndianRoundTrip(n, 8);
  }

  // ----- LMDB keys -----

  function IndexKey(name: string, key: seq<Byte>): string {
    "indexes/" + "/" + name + "/" + Hex(key)
  }

  const LATEST_BYTES: seq<Byte> :=
    [108, 97, 116, 101, 115, 116, 95, 98, 108, 111, 99, 107, 95, 104, 101, 105, 103, 104, 116]

  function DataKey(h: Hash): string { "blockdata_" + Hex(h) }
  function HeaderKey(h: Hash): string { "header_" + Hex(h) }
  function HeightKey(n: Uint64): string { IndexKey("height", HeightBytes(n)) }
  function LatestKey(): string { IndexKey("metadata", LATEST_BYTES) }

  /** Different entries have different keys: each family of keys is injective, and the four families are disjoint. */
  lemma LmdbKeysDistinct(g: Hash, h: Hash, m: Uint64, n: Uint64)
    ensures DataKey(g) == DataKey(h) <==> g == h
    ensures HeaderKey(g) == HeaderKey(h) <==> g == h
    ensures HeightKey(m) == HeightKey(n) <==> m == n
    ensures DataKey(g) != HeaderKey(h) && DataKey(g) != HeightKey(n) && DataKey(g) != LatestKey()
    ensures HeaderKey(g) != HeightKey(n) && HeaderKey(g) != LatestKey() && HeightKey(m) != LatestKey()
  {
    hide Hex, HeightBytes;
    assert DataKey(g)[10..] == Hex(g) && DataKey(h)[10..] == Hex(h);
    assert HeaderKey(g)[7..] == Hex(g) && HeaderKey(h)[7..] == Hex(h);
    if Hex(g) == Hex(h) { HexInjective(g, h); }
    assert HeightKey(m)[16..] == Hex(HeightBytes(m)) && HeightKey(n)[16..] == Hex(HeightBytes(n));
    HeightRoundTrip(m);
    HeightRoundTrip(n);
    if Hex(HeightBytes(m)) == Hex(HeightBytes(n)) { HexInjective(HeightBytes(m), HeightBytes(n)); }
    assert DataKey(g)[0] == 'b' && HeaderKey(g)[0] == HeaderKey(h)[0] == 'h';
    assert HeightKey(m)[0] == HeightKey(n)[0] == LatestKey()[0] == 'i' && HeightKey(m)[9] == 'h' && LatestKey()[9] == 'm';
  }

  // ----- keys of the memory database -----

  function MemoryHeightKey(n: Uint64): string { "height/" + Decimal(n) }
  const MEMORY_LATEST_KEY := "latest_block_height"

  lemma MemoryKeysDistinct(g: Hash, h: Hash, m: Uint64, n: Uint64)
    ensures Hex(g) == Hex(h) <==> g == h
    ensures MemoryHeightKey(m) == MemoryHeightKey(n) <==> m == n
    ensures Hex(g) != MemoryHeightKey(n) && Hex(g) != MEMORY_LATEST_KEY && MemoryHeightKey(m) != MEMORY_LATEST_KEY
  {
    hide Hex, Decimal;
    if Hex(g) == Hex(h) { HexInjective(g, h); }
    assert MemoryHeightKey(m)[7..] == Decimal(m) && MemoryHeightKey(n)[7..] == Decimal(n);
    if Decimal(m) == Decimal(n) { DecimalInjective(m, n); }
    HexLength(g);
    if g != [] { HexFirst(g); }
    assert MemoryHeightKey(m)[0] == MemoryHeightKey(n)[0] == 'h' && MEMORY_LATEST_KEY[0] == 'l';
  }
}
