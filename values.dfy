/** Dynamically typed values as they travel through the converters and decoders:
    JSON/CBOR scalars, lists and dictionaries. A Python dict is an association list
    with distinct keys that keeps insertion order: assigning to a present key
    replaces its value in place, assigning to an absent key appends it. */
module Values {

  datatype Option<T> = None | Some(value: T)

  /** The exceptions the modelled code can raise; every one of them aborts the
      packet or message being processed. InvalidDocument is what the MongoDB
      driver raises for a document with a key that is not a string. */
  datatype Failure = KeyError | TypeError | ZeroDivisionError | NameError | ReadError | InvalidDocument

  datatype Result<T> = Ok(value: T) | Err(error: Failure)

  /** What handling one packet or message comes to: dropped with a warning
      (an unknown port, an invalid length, no configuration), aborted by an
      exception, or done. */
  datatype Outcome<T> = Ignored | Failed(error: Failure) | Done(value: T)

  /** Hashable values that can be dictionary keys. */
  datatype Key = KInt(i: int) | KStr(s: string)

  datatype Value =
    | VInt(i: int)
    | VStr(s: string)
      /** a floating-point number, kept opaque: only its printed form is recorded */
    | VFloat(repr: string)
    | VList(items: seq<Value>)
    | VDict(fields: seq<(Key, Value)>)
      /** the floating-point result of `raw / divider + offset`, kept opaque */
    | VScaled(raw: Value, divider: Value, offset: Value)

  type Dict = seq<(Key, Value)>

  function S(s: string): Key { KStr(s) }

  /** The key a value becomes when used as a dictionary key or tested with `in`;
      None for values this model does not treat as hashable. */
  function AsKey(v: Value): Option<Key>
  {
    match v
    case VInt(i) => Some(KInt(i))
    case VStr(s) => Some(KStr(s))
    case _ => None
  }

  function KeyValue(k: Key): Value
  {
    match k
    case KInt(i) => VInt(i)
    case KStr(s) => VStr(s)
  }

  /** `for x in v`: the items of a list, the keys of a dict in order, the
      one-character strings of a string; any other value is not iterable
      (TypeError). */
  function Iterate(v: Value): (r: Result<seq<Value>>)
    ensures r.Ok? <==> v.VList? || v.VDict? || v.VStr?
    ensures v.VList? ==> r == Ok(v.items)
    ensures v.VDict? ==> r.Ok? && |r.value| == |v.fields|
    ensures v.VStr? ==> r.Ok? && |r.value| == |v.s|
  {
    match v
    case VList(items) => Ok(items)
    case VDict(fields) => Ok(seq(|fields|, i requires 0 <= i < |fields| => KeyValue(fields[i].0)))
    case VStr(s) => Ok(seq(|s|, i requires 0 <= i < |s| => VStr([s[i]])))
    case _ => Err(TypeError)
  }

  /** A loop over a value runs no iteration exactly for the empty list, dict
      and string. */
  lemma IterateEmpty(v: Value)
    ensures Iterate(v) == Ok([]) <==> v == VList([]) || v == VDict([]) || v == VStr("")
  {
  }

  /** Iterating a non-empty dict or string gives values that are not dicts. */
  lemma IterateScalars(v: Value)
    requires v.VDict? || v.VStr?
    ensures forall x :: x in Iterate(v).value ==> !x.VDict?
  {
    var items := Iterate(v).value;
    forall x | x in items ensures !x.VDict? {
      var i :| 0 <= i < |items| && items[i] == x;
      if v.VDict? {
        assert x == KeyValue(v.fields[i].0);
      }
    }
  }

  // ---------------------------------------------------------------------------
  // str() of integers

  function Digit(d: nat): char
    requires d < 10
  {
    "0123456789"[d]
  }

  /** Python's str() of a non-negative integer: its decimal digits. */
  function NatToDecimal(n: nat): (r: string)
    ensures |r| >= 1 && r[0] != '-'
    ensures |r| == 1 <==> n < 10
  {
    if n < 10 then [Digit(n)] else NatToDecimal(n / 10) + [Digit(n % 10)]
  }

  /** Python's str() of an integer. */
  function IntToDecimal(i: int): (r: string)
    ensures |r| >= 1 && (r[0] == '-' <==> i < 0)
  {
    if i < 0 then "-" + NatToDecimal(-i) else NatToDecimal(i)
  }

  lemma DigitInjective(a: nat, b: nat)
    requires a < 10 && b < 10 && Digit(a) == Digit(b)
    ensures a == b
  {
  }

  /** Distinct numbers print differently. */
  lemma {:induction false} NatToDecimalInjective(a: nat, b: nat)
    requires NatToDecimal(a) == NatToDecimal(b)
    ensures a == b
  {
    var ra, rb := NatToDecimal(a), NatToDecimal(b);
    if a < 10 {
      assert |rb| == 1;
      DigitInjective(a, b);
    } else {
      assert |rb| != 1;
      var pa, pb := NatToDecimal(a / 10), NatToDecimal(b / 10);
      assert ra == pa + [Digit(a % 10)] && rb == pb + [Digit(b % 10)];
      assert ra[|ra| - 1] == Digit(a % 10) && rb[|rb| - 1] == Digit(b % 10);
      DigitInjective(a % 10, b % 10);
      assert pa == ra[..|ra| - 1] && pb == rb[..|rb| - 1];
      NatToDecimalInjective(a / 10, b / 10);
    }
  }

  lemma {:induction false} IntToDecimalInjective(a: int, b: int)
    requires IntToDecimal(a) == IntToDecimal(b)
    ensures a == b
  {
    var ra := IntToDecimal(a);
    if a < 0 {
      assert b < 0;
      assert NatToDecimal(-a) == ra[1..] == NatToDecimal(-b);
      NatToDecimalInjective(-a, -b);
    } else {
      assert b >= 0;
      NatToDecimalInjective(a, b);
    }
  }

  /** str() of a hashable value. */
  function KeyText(k: Key): string
  {
    match k
    case KInt(i) => IntToDecimal(i)
    case KStr(s) => s
  }

  // ---------------------------------------------------------------------------
  // Dictionary operations

  function Keys(d: Dict): (ks: set<Key>)
    ensures forall i :: 0 <= i < |d| ==> d[i].0 in ks
  {
    if d == [] then {} else {d[0].0} + Keys(d[1..])
  }

  lemma {:induction false} KeysWitness(d: Dict, k: Key) returns (i: nat)
    requires k in Keys(d)
    ensures i < |d| && d[i].0 == k
  {
    if d[0].0 == k {
      i := 0;
    } else {
      var j := KeysWitness(d[1..], k);
      i := j + 1;
    }
  }

  lemma {:induction false} KeysConcat(a: Dict, b: Dict)
    ensures Keys(a + b) == Keys(a) + Keys(b)
    decreases |a|
  {
    if a != [] {
      assert (a + b)[1..] == a[1..] + b;
      KeysConcat(a[1..], b);
    } else {
      assert a + b == b;
    }
  }

  ghost predicate DistinctKeys(d: Dict)
  {
    forall i, j :: 0 <= i < j < |d| ==> d[i].0 != d[j].0
  }

  /** d[k], or None when k is absent (the lookup that raises KeyError). */
  function Get(d: Dict, k: Key): (r: Option<Value>)
    ensures r.Some? <==> k in Keys(d)
  {
    if d == [] then None
    else if d[0].0 == k then Some(d[0].1)
    else Get(d[1..], k)
  }

  lemma {:induction false} GetWitness(d: Dict, k: Key) returns (i: nat)
    requires Get(d, k).Some?
    ensures i < |d| && d[i] == (k, Get(d, k).value)
  {
    if d[0].0 == k {
      i := 0;
    } else {
      var j := GetWitness(d[1..], k);
      i := j + 1;
    }
  }

  /** `d.get(k, default)` */
  function GetOr(d: Dict, k: Key, default: Value): (r: Value)
    ensures k in Keys(d) ==> Some(r) == Get(d, k)
    ensures k !in Keys(d) ==> r == default
  {
    match Get(d, k)
    case Some(v) => v
    case None => default
  }

  /** `d[k] = v` */
  function Set(d: Dict, k: Key, v: Value): (r: Dict)
    ensures Keys(r) == Keys(d) + {k}
    ensures |r| == if k in Keys(d) then |d| else |d| + 1
  {
    if d == [] then [(k, v)]
    else if d[0].0 == k then [(k, v)] + d[1..]
    else [d[0]] + Set(d[1..], k, v)
  }

  /** `del d[k]` (nothing when k is absent) */
  function Remove(d: Dict, k: Key): (r: Dict)
    ensures Keys(r) == Keys(d) - {k}
  {
    if d == [] then []
    else if d[0].0 == k then Remove(d[1..], k)
    else [d[0]] + Remove(d[1..], k)
  }

  /** `d.update(e)`: assign every entry of e in order. */
  function Update(d: Dict, e: Dict): (r: Dict)
    ensures Keys(r) == Keys(d) + Keys(e)
    decreases |e|
  {
    if e == [] then d else Update(Set(d, e[0].0, e[0].1), e[1..])
  }

  /** Every key of every dict inside v is a string: the only documents MongoDB
      stores. */
  predicate StringKeyed(v: Value)
  {
    match v
    case VList(items) => forall i :: 0 <= i < |items| ==> StringKeyed(items[i])
    case VDict(fields) => forall i :: 0 <= i < |fields| ==> fields[i].0.KStr? && StringKeyed(fields[i].1)
    case _ => true
  }

  lemma StringKeyedConcat(a: Dict, b: Dict)
    ensures StringKeyed(VDict(a + b)) <==> StringKeyed(VDict(a)) && StringKeyed(VDict(b))
  {
    if StringKeyed(VDict(a)) && StringKeyed(VDict(b)) {
      forall i | 0 <= i < |a + b| ensures (a + b)[i].0.KStr? && StringKeyed((a + b)[i].1) {
        if i >= |a| {
          assert (a + b)[i] == b[i - |a|];
        }
      }
    }
    if StringKeyed(VDict(a + b)) {
      forall i | 0 <= i < |b| ensures b[i].0.KStr? && StringKeyed(b[i].1) {
        assert (a + b)[|a| + i] == b[i];
      }
      forall i | 0 <= i < |a| ensures a[i].0.KStr? && StringKeyed(a[i].1) {
        assert (a + b)[i] == a[i];
      }
    }
  }

  /** A dict with an integer key is not stored, whatever else it holds. */
  lemma IntegerKeyUnstorable(d: Dict, i: int)
    requires KInt(i) in Keys(d)
    ensures !StringKeyed(VDict(d))
  {
    var j := KeysWitness(d, KInt(i));
  }

  lemma {:induction false} GetSet(d: Dict, k: Key, v: Value, k': Key)
    ensures Get(Set(d, k, v), k') == if k' == k then Some(v) else Get(d, k')
  {
    if d != [] && d[0].0 != k {
      GetSet(d[1..], k, v, k');
    }
  }

  lemma {:induction false} SetAbsent(d: Dict, k: Key, v: Value)
    requires k !in Keys(d)
    ensures Set(d, k, v) == d + [(k, v)]
  {
    if d != [] {
      SetAbsent(d[1..], k, v);
    }
  }

  /** A key that no entry carries is not among the keys. */
  lemma {:induction false} NotInKeys(d: Dict, k: Key)
    requires forall i :: 0 <= i < |d| ==> d[i].0 != k
    ensures k !in Keys(d)
  {
    if d != [] {
      NotInKeys(d[1..], k);
    }
  }

  lemma HeadNotInTail(d: Dict)
    requires d != [] && DistinctKeys(d)
    ensures d[0].0 !in Keys(d[1..])
  {
    NotInKeys(d[1..], d[0].0);
  }

  lemma DistinctCons(e: (Key, Value), d: Dict)
    requires DistinctKeys(d) && e.0 !in Keys(d)
    ensures DistinctKeys([e] + d)
  {
    var r := [e] + d;
    forall i, j | 0 <= i < j < |r| ensures r[i].0 != r[j].0 {
      assert r[j] == d[j - 1];
      if i > 0 { assert r[i] == d[i - 1]; }
    }
  }

  lemma {:induction false} SetPreservesDistinct(d: Dict, k: Key, v: Value)
    requires DistinctKeys(d)
    ensures DistinctKeys(Set(d, k, v))
  {
    if d != [] && d[0].0 != k {
      assert DistinctKeys(d[1..]);
      SetPreservesDistinct(d[1..], k, v);
      HeadNotInTail(d);
      DistinctCons(d[0], Set(d[1..], k, v));
    } else if d != [] {
      assert DistinctKeys(d[1..]);
      HeadNotInTail(d);
      DistinctCons((k, v), d[1..]);
    }
  }

  lemma {:induction false} GetRemove(d: Dict, k: Key, k': Key)
    ensures Get(Remove(d, k), k') == if k' == k then None else Get(d, k')
  {
    if d != [] {
      GetRemove(d[1..], k, k');
    }
  }

  lemma {:induction false} RemovePreservesDistinct(d: Dict, k: Key)
    requires DistinctKeys(d)
    ensures DistinctKeys(Remove(d, k))
  {
    if d != [] {
      assert DistinctKeys(d[1..]);
      RemovePreservesDistinct(d[1..], k);
      if d[0].0 != k {
        HeadNotInTail(d);
        DistinctCons(d[0], Remove(d[1..], k));
      }
    }
  }

  /** After `d.update(e)` every key of e has e's value and every other key keeps d's. */
  lemma {:induction false} GetUpdate(d: Dict, e: Dict, k: Key)
    requires DistinctKeys(e)
    ensures Get(Update(d, e), k) == if k in Keys(e) then Get(e, k) else Get(d, k)
    decreases |e|
  {
    if e != [] {
      assert DistinctKeys(e[1..]);
      GetUpdate(Set(d, e[0].0, e[0].1), e[1..], k);
      GetSet(d, e[0].0, e[0].1, k);
      HeadNotInTail(e);
    }
  }

  lemma {:induction false} UpdatePreservesDistinct(d: Dict, e: Dict)
    requires DistinctKeys(d)
    ensures DistinctKeys(Update(d, e))
    decreases |e|
  {
    if e != [] {
      SetPreservesDistinct(d, e[0].0, e[0].1);
      UpdatePreservesDistinct(Set(d, e[0].0, e[0].1), e[1..]);
    }
  }

  /** Updating with keys that are all absent appends them in order. */
  lemma {:induction false} UpdateAbsent(d: Dict, e: Dict)
    requires DistinctKeys(e) && Keys(d) !! Keys(e)
    ensures Update(d, e) == d + e
    decreases |e|
  {
    if e != [] {
      assert e[0].0 in Keys(e);
      SetAbsent(d, e[0].0, e[0].1);
      HeadNotInTail(e);
      KeysConcat(d, [e[0]]);
      assert DistinctKeys(e[1..]);
      UpdateAbsent(d + [e[0]], e[1..]);
      assert d + [e[0]] + e[1..] == d + e;
    }
  }
}
