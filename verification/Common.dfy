/** Small shared vocabulary. */
module Common {

  datatype Option<+T> = None | Some(value: T)

  type Bytes = seq<nat>

  /** Ethereum accounts; the zero address is what an unset mapping entry reads as. */
  type Address = nat

  const ZERO_ADDRESS: Address := 0

  const MAX_UINT64: nat := 0xFFFF_FFFF_FFFF_FFFF

  const MAX_UINT256: nat := 0xFFFFFFFF_FFFFFFFF_FFFFFFFF_FFFFFFFF_FFFFFFFF_FFFFFFFF_FFFFFFFF_FFFFFFFF

  lemma {:induction false} SubsetSize<T>(a: set<T>, b: set<T>)
    requires a <= b
    ensures |a| <= |b|
  {
    if a != {} {
      var x :| x in a;
      SubsetSize(a - {x}, b - {x});
    }
  }

  lemma DifferenceSize<T>(a: set<T>, b: set<T>)
    ensures |a - b| >= |a| - |b|
  {
    assert a <= (a - b) + b;
    SubsetSize(a, (a - b) + b);
  }

  function RemoveAt<T>(s: seq<T>, i: nat): seq<T>
    requires i < |s|
  {
    s[..i] + s[i + 1..]
  }

  lemma RemoveAtMultiset<T>(s: seq<T>, i: nat)
    requires i < |s|
    ensures multiset(s) == multiset(RemoveAt(s, i)) + multiset{s[i]}
  {
    assert s == s[..i] + ([s[i]] + s[i + 1..]);
  }

  lemma PermutationLast<T>(a: seq<T>, b: seq<T>) returns (i: nat)
    requires a != [] && multiset(a) == multiset(b)
    ensures i < |b| && b[i] == a[|a| - 1]
    ensures multiset(a[..|a| - 1]) == multiset(RemoveAt(b, i))
  {
    var n := |a| - 1;
    assert a == a[..n] + [a[n]];
    assert a[n] in multiset(a);
    assert a[n] in b;
    i :| 0 <= i < |b| && b[i] == a[n];
    RemoveAtMultiset(b, i);
    assert multiset(a[..n]) == multiset(a) - multiset{a[n]};
    assert multiset(RemoveAt(b, i)) == multiset(b) - multiset{a[n]};
  }
}
