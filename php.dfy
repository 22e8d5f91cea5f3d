/**
  The parts of PHP's runtime semantics that the server code relies on: the values
  that travel in handler results and configuration, what `empty($v)` and `!$v`
  treat as false, how an array normalises its keys, the conversion between
  integers and decimal strings, and arrays that remember insertion order.
 */
module Php {

  datatype Option<+T> = None | Some(value: T)

  newtype byte = x: int | 0 <= x < 256

  /** A PHP binary string. */
  type Bytes = seq<byte>

  /** The PHP values the model distinguishes. Objects are opaque identities. */
  datatype Value = Null | Bool(b: bool) | Int(i: int) | Str(s: string) | Obj(id: nat)

  /** `empty($v)`, equivalently `!$v`. */
  predicate Falsy(v: Value)
  {
    match v
    case Null => true
    case Bool(b) => !b
    case Int(i) => i == 0
    case Str(s) => s == "" || s == "0"
    case Obj(_) => false
  }

  /** `!$data` for a binary string: the empty string and "0" are false. */
  predicate FalsyBytes(data: Bytes)
  {
    data == [] || data == ['0' as int as byte]
  }

  /** `isset($a[$k])`: the key is present and its value is not null. */
  predicate Isset(a: map<string, Value>, k: string)
  {
    k in a && a[k] != Null
  }

  /** `$a[$k] ?? $default`. */
  function Coalesce(a: map<string, Value>, k: string, default: Value): (v: Value)
    ensures Isset(a, k) ==> v == a[k]
    ensures !Isset(a, k) ==> v == default
  {
    if Isset(a, k) then a[k] else default
  }

  // ---------------------------------------------------------------------------
  // Integers and decimal strings

  const MinInt: int := -0x8000_0000_0000_0000
  const MaxInt: int := 0x7fff_ffff_ffff_ffff

  predicate InIntRange(n: int)
  {
    MinInt <= n <= MaxInt
  }

  predicate IsDigit(c: char)
  {
    '0' <= c <= '9'
  }

  predicate AllDigits(s: string)
  {
    forall i :: 0 <= i < |s| ==> IsDigit(s[i])
  }

  function DigitChar(d: int): (c: char)
    requires 0 <= d < 10
    ensures IsDigit(c) && c as int - '0' as int == d
  {
    (d + '0' as int) as char
  }

  /** The decimal digits of `n`, most significant first, without leading zeros. */
  function NatToDecimal(n: nat): (s: string)
    ensures |s| > 0 && AllDigits(s)
    ensures s[0] == '0' ==> n == 0 && s == "0"
  {
    if n < 10 then [DigitChar(n)] else NatToDecimal(n / 10) + [DigitChar(n % 10)]
  }

  /** PHP's string form of an integer, as produced by `(string)$n`. */
  function IntToDecimal(n: int): string
  {
    if n < 0 then "-" + NatToDecimal(-n) else NatToDecimal(n)
  }

  /** The value of a string of decimal digits. */
  function DigitsValue(s: string): nat
    requires AllDigits(s)
  {
    if s == [] then 0 else DigitsValue(s[..|s| - 1]) * 10 + (s[|s| - 1] as int - '0' as int)
  }

  /** An optional minus sign followed by at least one digit. */
  predicate IsDecimalSyntax(s: string)
  {
    if |s| > 0 && s[0] == '-' then |s| > 1 && AllDigits(s[1..]) else |s| > 0 && AllDigits(s)
  }

  function ParseDecimal(s: string): int
    requires IsDecimalSyntax(s)
  {
    if s[0] == '-' then -(DigitsValue(s[1..]) as int) else DigitsValue(s)
  }

  lemma {:induction false} NatDecimalRoundTrip(n: nat)
    ensures DigitsValue(NatToDecimal(n)) == n
  {
    if n >= 10 {
      var s := NatToDecimal(n);
      assert s[..|s| - 1] == NatToDecimal(n / 10);
      NatDecimalRoundTrip(n / 10);
    }
  }

  /** Printing an integer and reading it back gives the integer. */
  lemma DecimalRoundTrip(n: int)
    ensures IsDecimalSyntax(IntToDecimal(n))
    ensures ParseDecimal(IntToDecimal(n)) == n
  {
    var d := NatToDecimal(if n < 0 then -n else n);
    NatDecimalRoundTrip(if n < 0 then -n else n);
    if n < 0 {
      assert IntToDecimal(n)[1..] == d;
    } else {
      assert IntToDecimal(n) == d && d[0] != '-';
    }
  }

  /**
    The integer a value becomes when it is passed to an `int` parameter of a PHP
    function in coercive mode, or None when PHP raises a TypeError instead.
   */
  function IntParam(v: Value): (r: Option<int>)
    ensures v.Int? ==> r == Some(v.i)
    ensures v.Str? && IsDecimalSyntax(v.s) && InIntRange(ParseDecimal(v.s)) ==> r == Some(ParseDecimal(v.s))
    ensures v.Null? || v.Obj? ==> r == None
  {
    match v
    case Int(i) => Some(i)
    case Bool(b) => Some(if b then 1 else 0)
    case Str(s) => if IsDecimalSyntax(s) && InIntRange(ParseDecimal(s)) then Some(ParseDecimal(s)) else None
    case _ => None
  }

  // ---------------------------------------------------------------------------
  // Array keys

  /** A PHP array key, or an `int | string` argument that is used as one. */
  datatype ArrayKey = IntKey(i: int) | StrKey(s: string)

  /** A string PHP stores as an integer key: the canonical decimal form of a 64-bit integer. */
  predicate IsIntegerKeyString(s: string)
  {
    IsDecimalSyntax(s) && InIntRange(ParseDecimal(s)) && IntToDecimal(ParseDecimal(s)) == s
  }

  /** The key `$a[$k]` actually addresses: "7" and 7 are the same slot, "07" and "-0" are not. */
  function NormalizeKey(k: ArrayKey): (r: ArrayKey)
    ensures r.IntKey? <==> k.IntKey? || IsIntegerKeyString(k.s)
    ensures r.StrKey? ==> r == k
  {
    match k
    case IntKey(_) => k
    case StrKey(s) => if IsIntegerKeyString(s) then IntKey(ParseDecimal(s)) else k
  }

  /**
    A string code and an integer code address the same array slot exactly when the
    string is the integer's decimal form.
   */
  lemma SameSlotIff(s: string, n: int)
    requires InIntRange(n)
    ensures NormalizeKey(StrKey(s)) == NormalizeKey(IntKey(n)) <==> s == IntToDecimal(n)
  {
    DecimalRoundTrip(n);
  }

  // ---------------------------------------------------------------------------
  // Insertion-ordered arrays

  /**
    A PHP array used as a dictionary: `keys` lists the keys in insertion order,
    `entries` maps each key to its value. Assigning to an existing key keeps its place.
   */
  datatype OrderedMap<K(==,!new), V> = OrderedMap(keys: seq<K>, entries: map<K, V>)
  {
    ghost predicate Valid()
    {
      && (forall i, j :: 0 <= i < j < |keys| ==> keys[i] != keys[j])
      && (forall k :: k in entries <==> k in keys)
    }

    function Get(k: K): Option<V>
    {
      if k in entries then Some(entries[k]) else None
    }

    /** `$a[$k] = $v`. */
    function Put(k: K, v: V): (r: OrderedMap<K, V>)
      requires Valid()
      ensures r.Valid()
      ensures r.Get(k) == Some(v)
      ensures forall k' :: k' != k ==> r.Get(k') == Get(k')
      ensures r.keys == if k in entries then keys else keys + [k]
    {
      OrderedMap(if k in entries then keys else keys + [k], entries[k := v])
    }

    /** The values in iteration (insertion) order, as `foreach` visits them. */
    function Values(): (vs: seq<V>)
      requires Valid()
      ensures |vs| == |keys|
      ensures forall i :: 0 <= i < |keys| ==> vs[i] == entries[keys[i]]
    {
      seq(|keys|, i requires 0 <= i < |keys| => entries[keys[i]])
    }
  }

  function EmptyMap<K(==,!new), V>(): (m: OrderedMap<K, V>)
    ensures m.Valid() && m.keys == []
  {
    OrderedMap([], map[])
  }
}
