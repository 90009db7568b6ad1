/** The collision-free channel naming of both decoders' `decode_data_entries`:
    a name already taken becomes `name_n` for the smallest n >= 2 not taken. */
module Naming {
  import opened Values

  /** `"{}_{}".format(name, n)` */
  function Suffixed(name: Key, n: nat): Key
  {
    S(KeyText(name) + "_" + NatToDecimal(n))
  }

  lemma SuffixedInjective(name: Key, a: nat, b: nat)
    requires Suffixed(name, a) == Suffixed(name, b)
    ensures a == b
  {
    var p := KeyText(name) + "_";
    assert Suffixed(name, a).s == p + NatToDecimal(a) && Suffixed(name, b).s == p + NatToDecimal(b);
    assert (p + NatToDecimal(a))[|p|..] == NatToDecimal(a);
    assert (p + NatToDecimal(b))[|p|..] == NatToDecimal(b);
    NatToDecimalInjective(a, b);
  }

  lemma {:induction false} KeysBound(d: Dict)
    ensures |Keys(d)| <= |d|
  {
    if d != [] {
      KeysBound(d[1..]);
    }
  }

  lemma {:induction false} SubsetCard<T>(a: set<T>, b: set<T>)
    requires a <= b
    ensures |a| <= |b|
    decreases a
  {
    if a != {} {
      var x :| x in a;
      SubsetCard(a - {x}, b - {x});
    }
  }

  /** The names `name_2` ... `name_(n-1)`. */
  function SuffixesBelow(name: Key, n: nat): (r: set<Key>)
    ensures n >= 2 ==> |r| == n - 2
    ensures forall m :: 2 <= m < n ==> Suffixed(name, m) in r
    ensures forall k :: k in r ==> exists m :: 2 <= m < n && k == Suffixed(name, m)
  {
    if n <= 2 then {}
    else
      var r := SuffixesBelow(name, n - 1);
      assert Suffixed(name, n - 1) !in r by {
        if Suffixed(name, n - 1) in r {
          var m :| 2 <= m < n - 1 && Suffixed(name, n - 1) == Suffixed(name, m);
          SuffixedInjective(name, n - 1, m);
        }
      }
      r + {Suffixed(name, n - 1)}
  }

  /** A dict with n entries cannot hold every one of n + 1 distinct names. */
  lemma UsedBound(d: Dict, name: Key, n: nat)
    requires n >= 2 && forall m :: 2 <= m < n ==> Suffixed(name, m) in Keys(d)
    ensures n - 2 <= |d|
  {
    var used := SuffixesBelow(name, n);
    SubsetCard(used, Keys(d));
    KeysBound(d);
  }

  /** The first n >= from whose suffixed name is not a key of d. */
  function FirstFree(d: Dict, name: Key, from: nat): (n: nat)
    requires from >= 2 && forall m :: 2 <= m < from ==> Suffixed(name, m) in Keys(d)
    ensures n >= from && Suffixed(name, n) !in Keys(d)
    ensures forall m :: 2 <= m < n ==> Suffixed(name, m) in Keys(d)
    decreases |d| + 2 - from
  {
    UsedBound(d, name, from);
    if Suffixed(name, from) !in Keys(d) then from else FirstFree(d, name, from + 1)
  }

  /** The name an entry is stored under: its own when free, else the first
      free suffixed one. */
  function FreshName(d: Dict, name: Key): (r: Key)
    ensures r !in Keys(d)
    ensures name !in Keys(d) ==> r == name
    ensures name in Keys(d) ==> exists n :: n >= 2 && r == Suffixed(name, n) && forall m :: 2 <= m < n ==> Suffixed(name, m) in Keys(d)
  {
    if name !in Keys(d) then name else Suffixed(name, FirstFree(d, name, 2))
  }

  /** The suffix search `for num in itertools.count(start=2)`. */
  method PickName(channels: Dict, name: Key) returns (r: Key)
    ensures r == FreshName(channels, name)
  {
    if name !in Keys(channels) {
      return name;
    }
    var num := 2;
    while Suffixed(name, num) in Keys(channels)
      invariant num >= 2 && forall m :: 2 <= m < num ==> Suffixed(name, m) in Keys(channels)
      invariant FirstFree(channels, name, num) == FirstFree(channels, name, 2)
      decreases |channels| + 2 - num
    {
      UsedBound(channels, name, num + 1);
      num := num + 1;
    }
    return Suffixed(name, num);
  }
}
