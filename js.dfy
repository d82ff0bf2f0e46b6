/**
 * JavaScript values as the dashboard's front end handles them: the values a
 * `JSON.parse` can yield, `undefined`, and NaN (which arithmetic on amenity
 * counts can produce). Numbers are reals: no rounding, no infinities, no -0.
 *
 * An ordinary object is stored with its own properties in the order
 * `Object.keys` enumerates them (section 10.1.11.1 of ECMA-262,
 * OrdinaryOwnPropertyKeys): first every array-index key ("0", "7", "2024", ...)
 * in ascending numeric order, then every other string key in insertion order.
 * `Put` keeps that order, so two objects that behave alike are equal values.
 */
module Js {
  import opened Wrappers

  datatype Value =
    | Undefined
    | Null
    | Bool(b: bool)
    | Num(n: real)
    | NaN
    | Str(s: string)
    | Arr(items: seq<Value>)
    | Obj(obj: JsObject)

  /** Own enumerable string-keyed properties, in `Object.keys` order. */
  datatype JsObject = JsObject(entries: seq<(string, Value)>)

  type Entries = seq<(string, Value)>

  /** The object literal `{}`. */
  const Empty: JsObject := JsObject([])

  /** `!!v` */
  predicate Truthy(v: Value) {
    match v
    case Undefined => false
    case Null => false
    case Bool(b) => b
    case Num(n) => n != 0.0
    case NaN => false
    case Str(s) => s != ""
    case Arr(_) => true
    case Obj(_) => true
  }

  // ---------------------------------------------------------------------------
  // Decimal digit strings and array-index keys

  predicate IsDigit(c: char) { '0' <= c <= '9' }

  predicate AllDigits(s: string) { forall i :: 0 <= i < |s| ==> IsDigit(s[i]) }

  function DigitValue(c: char): nat
    requires IsDigit(c)
  {
    (c as int) - ('0' as int)
  }

  function Digit(d: nat): (c: char)
    requires d < 10
    ensures IsDigit(c) && DigitValue(c) == d
  {
    ((('0' as int) + d) as char)
  }

  /** The number a string of decimal digits denotes (leading zeros allowed). */
  function DigitsValue(s: string): nat
    requires AllDigits(s)
    decreases |s|
  {
    if s == [] then 0 else DigitsValue(s[..|s| - 1]) * 10 + DigitValue(s[|s| - 1])
  }

  /** A non-empty digit string without a superfluous leading zero. */
  predicate Canonical(s: string) {
    |s| > 0 && AllDigits(s) && (s[0] == '0' ==> |s| == 1)
  }

  /** The decimal numeral of `n`, as `String(n)` and Python's `str(n)` write it. */
  function DecimalString(n: nat): (r: string)
    ensures Canonical(r) && DigitsValue(r) == n
  {
    if n < 10 then [Digit(n)]
    else
      var p := DecimalString(n / 10);
      var r := p + [Digit(n % 10)];
      assert r[..|r| - 1] == p;
      r
  }

  lemma {:induction false} LeadingDigitPositive(s: string)
    requires AllDigits(s) && |s| > 0 && s[0] != '0'
    ensures DigitsValue(s) > 0
  {
    if |s| > 1 {
      LeadingDigitPositive(s[..|s| - 1]);
    }
  }

  /** Reading a canonical numeral and writing the number back gives the numeral. */
  lemma {:induction false} DecimalStringOfDigits(s: string)
    requires Canonical(s)
    ensures DecimalString(DigitsValue(s)) == s
  {
    if |s| > 1 {
      var p := s[..|s| - 1];
      LeadingDigitPositive(p);
      DecimalStringOfDigits(p);
      var n := DigitsValue(s);
      assert n / 10 == DigitsValue(p) && n % 10 == DigitValue(s[|s| - 1]);
      assert s == p + [s[|s| - 1]];
    }
  }

  /** Two canonical numerals with the same value are the same string. */
  lemma CanonicalInjective(a: string, b: string)
    requires Canonical(a) && Canonical(b) && DigitsValue(a) == DigitsValue(b)
    ensures a == b
  {
    DecimalStringOfDigits(a);
    DecimalStringOfDigits(b);
  }

  /** 2^32 - 2, the largest array index. */
  const MaxIndex: nat := 0xFFFF_FFFE

  /** A key that `Object.keys` lists first, in numeric order. */
  predicate IsIndexKey(k: string) {
    Canonical(k) && DigitsValue(k) <= MaxIndex
  }

  // ---------------------------------------------------------------------------
  // Ordinary objects

  function Keys(es: Entries): (ks: seq<string>)
    ensures |ks| == |es|
    ensures forall i :: 0 <= i < |es| ==> ks[i] == es[i].0
  {
    if es == [] then [] else [es[0].0] + Keys(es[1..])
  }

  /** `Object.keys(o)` */
  function KeysOf(o: JsObject): seq<string> { Keys(o.entries) }

  /** Keys are distinct and listed in `Object.keys` order. */
  ghost predicate Ordered(es: Entries) {
    es == [] ||
    (&& es[0].0 !in Keys(es[1..])
     && (forall x :: x in Keys(es[1..]) && IsIndexKey(x) ==>
           IsIndexKey(es[0].0) && DigitsValue(es[0].0) < DigitsValue(x))
     && Ordered(es[1..]))
  }

  ghost predicate WellFormed(o: JsObject) { Ordered(o.entries) }

  function Lookup(es: Entries, k: string): Value {
    if es == [] then Undefined
    else if es[0].0 == k then es[0].1
    else Lookup(es[1..], k)
  }

  /** `o[k]` for an own property; `undefined` when there is none. */
  function Get(o: JsObject, k: string): Value { Lookup(o.entries, k) }

  /** The entries after `o[k] = v`: an existing key keeps its place, a new
      index key goes in numeric order, and any other new key goes last. */
  function Put(es: Entries, k: string, v: Value): (r: Entries)
    ensures Lookup(r, k) == v
    ensures |es| <= |r| <= |es| + 1
  {
    if es == [] then [(k, v)]
    else if es[0].0 == k then [(k, v)] + es[1..]
    else if IsIndexKey(k) && (!IsIndexKey(es[0].0) || DigitsValue(k) < DigitsValue(es[0].0)) then
      [(k, v)] + es
    else [es[0]] + Put(es[1..], k, v)
  }

  /** `o[k] = v` */
  function Set(o: JsObject, k: string, v: Value): JsObject { JsObject(Put(o.entries, k, v)) }

  /** The entries after `delete o[k]`. */
  function Remove(es: Entries, k: string): (r: Entries)
    ensures Lookup(r, k) == Undefined
    ensures |r| <= |es|
  {
    if es == [] then []
    else if es[0].0 == k then Remove(es[1..], k)
    else [es[0]] + Remove(es[1..], k)
  }

  /** `delete o[k]` */
  function Delete(o: JsObject, k: string): JsObject { JsObject(Remove(o.entries, k)) }

  lemma {:induction false} KeysPut(es: Entries, k: string, v: Value)
    ensures forall x :: x in Keys(Put(es, k, v)) <==> x in Keys(es) || x == k
  {
    if es != [] && es[0].0 != k {
      if !(IsIndexKey(k) && (!IsIndexKey(es[0].0) || DigitsValue(k) < DigitsValue(es[0].0))) {
        KeysPut(es[1..], k, v);
        assert Keys(es) == [es[0].0] + Keys(es[1..]);
      }
    }
  }

  lemma {:induction false} KeysRemove(es: Entries, k: string)
    ensures forall x :: x in Keys(Remove(es, k)) <==> x in Keys(es) && x != k
  {
    if es != [] {
      KeysRemove(es[1..], k);
      assert Keys(es) == [es[0].0] + Keys(es[1..]);
    }
  }

  /** The first key of an ordered list is an array index whenever any key is,
      and then it is the smallest. */
  lemma HeadIsLeastIndex(es: Entries, x: string)
    requires Ordered(es) && x in Keys(es) && IsIndexKey(x)
    ensures IsIndexKey(es[0].0) && DigitsValue(es[0].0) <= DigitsValue(x)
  {
    assert Keys(es) == [es[0].0] + Keys(es[1..]);
  }

  /** Writing a property keeps keys distinct and in `Object.keys` order. */
  lemma {:induction false} PutOrdered(es: Entries, k: string, v: Value)
    requires Ordered(es)
    ensures Ordered(Put(es, k, v))
  {
    if es == [] {
    } else if es[0].0 == k {
      assert Put(es, k, v)[1..] == es[1..];
    } else if IsIndexKey(k) && (!IsIndexKey(es[0].0) || DigitsValue(k) < DigitsValue(es[0].0)) {
      var r := Put(es, k, v);
      assert r[1..] == es;
      if k in Keys(es) {
        HeadIsLeastIndex(es, k);
        assert false;
      }
      forall x | x in Keys(es) && IsIndexKey(x)
        ensures DigitsValue(k) < DigitsValue(x)
      {
        HeadIsLeastIndex(es, x);
      }
    } else {
      var r := Put(es, k, v);
      assert r[1..] == Put(es[1..], k, v);
      PutOrdered(es[1..], k, v);
      KeysPut(es[1..], k, v);
      if IsIndexKey(k) {
        if DigitsValue(k) == DigitsValue(es[0].0) {
          CanonicalInjective(k, es[0].0);
        }
      }
    }
  }

  /** Deleting a property keeps keys distinct and in `Object.keys` order. */
  lemma {:induction false} RemoveOrdered(es: Entries, k: string)
    requires Ordered(es)
    ensures Ordered(Remove(es, k))
  {
    if es != [] {
      RemoveOrdered(es[1..], k);
      KeysRemove(es[1..], k);
      if es[0].0 != k {
        assert Remove(es, k)[1..] == Remove(es[1..], k);
      }
    }
  }

  /** After `o[k] = v`, reading `k` gives `v` and every other key reads as before. */
  lemma {:induction false} LookupPut(es: Entries, k: string, v: Value, y: string)
    ensures Lookup(Put(es, k, v), y) == if y == k then v else Lookup(es, y)
  {
    if es != [] && es[0].0 != k {
      if !(IsIndexKey(k) && (!IsIndexKey(es[0].0) || DigitsValue(k) < DigitsValue(es[0].0))) {
        LookupPut(es[1..], k, v, y);
      }
    }
  }

  /** After `delete o[k]`, `k` reads as undefined and every other key as before. */
  lemma {:induction false} LookupRemove(es: Entries, k: string, y: string)
    ensures Lookup(Remove(es, k), y) == if y == k then Undefined else Lookup(es, y)
  {
    if es != [] {
      LookupRemove(es[1..], k, y);
    }
  }

  lemma {:induction false} LookupAbsent(es: Entries, k: string)
    requires k !in Keys(es)
    ensures Lookup(es, k) == Undefined
  {
    if es != [] {
      assert Keys(es) == [es[0].0] + Keys(es[1..]);
      LookupAbsent(es[1..], k);
    }
  }

  lemma {:induction false} RemoveAbsent(es: Entries, k: string)
    requires k !in Keys(es)
    ensures Remove(es, k) == es
  {
    if es != [] {
      assert Keys(es) == [es[0].0] + Keys(es[1..]);
      RemoveAbsent(es[1..], k);
    }
  }

  /** Adding a property that was absent and deleting it again restores the
      object exactly, key order included. */
  lemma {:induction false} RemovePutAbsent(es: Entries, k: string, v: Value)
    requires k !in Keys(es)
    ensures Remove(Put(es, k, v), k) == es
  {
    if es != [] {
      KeysCons(es);
      if IsIndexKey(k) && (!IsIndexKey(es[0].0) || DigitsValue(k) < DigitsValue(es[0].0)) {
        assert Put(es, k, v) == [(k, v)] + es;
        RemoveAbsent(es, k);
      } else {
        PutAfterHead(es, k, v);
        RemovePutAbsent(es[1..], k, v);
      }
    }
  }

  /** Writing a property twice is writing it once with the second value. */
  lemma {:induction false} PutPut(es: Entries, k: string, v1: Value, v2: Value)
    ensures Put(Put(es, k, v1), k, v2) == Put(es, k, v2)
  {
    if es != [] && es[0].0 != k {
      if !(IsIndexKey(k) && (!IsIndexKey(es[0].0) || DigitsValue(k) < DigitsValue(es[0].0))) {
        PutPut(es[1..], k, v1, v2);
      }
    }
  }

  /** Writing back the value a present key already holds changes nothing. */
  lemma {:induction false} PutExisting(es: Entries, k: string)
    requires Ordered(es) && k in Keys(es)
    ensures Put(es, k, Lookup(es, k)) == es
  {
    KeysCons(es);
    if es[0].0 == k {
      assert es == [es[0]] + es[1..];
    } else {
      OrderedTail(es);
      if IsIndexKey(k) {
        HeadIsLeastIndex(es, k);
      }
      PutAfterHead(es, k, Lookup(es, k));
      PutExisting(es[1..], k);
    }
  }

  /** The keys of a non-empty list are its first key and the keys after it. */
  lemma KeysCons(es: Entries)
    requires es != []
    ensures Keys(es) == [es[0].0] + Keys(es[1..])
  {
  }

  /** The entries after the first of an ordered list are ordered. */
  lemma OrderedTail(es: Entries)
    requires Ordered(es) && es != []
    ensures Ordered(es[1..]) && es[0].0 !in Keys(es[1..])
  {
  }

  /** A key that `Object.keys` lists after the first one is written further on. */
  lemma PutAfterHead(es: Entries, k: string, v: Value)
    requires es != [] && es[0].0 != k
    requires !IsIndexKey(k) || (IsIndexKey(es[0].0) && DigitsValue(es[0].0) <= DigitsValue(k))
    ensures Put(es, k, v) == [es[0]] + Put(es[1..], k, v)
  {
  }

  /** When every key is a year-like array index, the key `Object.keys` lists
      last is the numerically largest one. */
  lemma {:induction false} LastKeyIsLargest(es: Entries)
    requires Ordered(es) && es != []
    requires forall i :: 0 <= i < |es| ==> IsIndexKey(es[i].0)
    ensures forall i :: 0 <= i < |es| ==>
      IsIndexKey(es[i].0) && IsIndexKey(es[|es| - 1].0) && DigitsValue(es[i].0) <= DigitsValue(es[|es| - 1].0)
  {
    if |es| > 1 {
      var tail := es[1..];
      LastKeyIsLargest(tail);
      assert tail[|tail| - 1] == es[|es| - 1];
      assert tail[|tail| - 1].0 in Keys(tail);
    }
  }

  /** When some key is not an array index, `Object.keys` lists such a key last. */
  lemma {:induction false} LastKeyIsNamedWhenAnyIs(es: Entries, x: string)
    requires Ordered(es) && x in Keys(es) && !IsIndexKey(x)
    ensures !IsIndexKey(Keys(es)[|es| - 1])
  {
    assert Keys(es) == [es[0].0] + Keys(es[1..]);
    if |es| > 1 {
      var last := Keys(es)[|es| - 1];
      assert last == Keys(es[1..])[|es| - 2];
      assert last in Keys(es[1..]);
      if x in Keys(es[1..]) {
        LastKeyIsNamedWhenAnyIs(es[1..], x);
      } else {
        assert x == es[0].0;
      }
    }
  }

  // ---------------------------------------------------------------------------
  // Property access and enumeration on any value

  /** `v[k]`, for a value that is neither undefined nor null. Properties that
      come from a prototype (`toString`, `constructor`, ...) are not modelled. */
  function GetProp(v: Value, k: string): Value
    requires !v.Undefined? && !v.Null?
  {
    match v
    case Obj(o) => Get(o, k)
    case Str(s) =>
      if k == "length" then Num(|s| as real)
      else if IsIndexKey(k) && DigitsValue(k) < |s| then Str([s[DigitsValue(k)]])
      else Undefined
    case Arr(items) =>
      if k == "length" then Num(|items| as real)
      else if IsIndexKey(k) && DigitsValue(k) < |items| then items[DigitsValue(k)]
      else Undefined
    case _ => Undefined
  }

  /** `Object.entries(v)`; `None` stands for the TypeError it throws on
      undefined and null. A string enumerates its characters, an array its
      elements, under their indices. */
  function OwnEntries(v: Value): (r: Option<Entries>)
    ensures r.None? <==> v.Undefined? || v.Null?
  {
    match v
    case Undefined => None
    case Null => None
    case Str(s) => Some(seq(|s|, i requires 0 <= i < |s| => (DecimalString(i), Str([s[i]]))))
    case Arr(items) => Some(seq(|items|, i requires 0 <= i < |items| => (DecimalString(i), items[i])))
    case Obj(o) => Some(o.entries)
    case _ => Some([])
  }

  // ---------------------------------------------------------------------------
  // Conversions

  /** The bound beyond which `String(n)` switches to exponent notation. */
  const ExponentBound: real := 1000000000000000000000.0

  /** `String(n)` for a number: integers below 10^21 are written in decimal;
      `fmt` stands for the formatting of every other number. */
  function NumberToString(n: real, fmt: real -> string): string {
    if n == n.Floor as real && -ExponentBound < n < ExponentBound then
      if n < 0.0 then "-" + DecimalString(-n.Floor) else DecimalString(n.Floor)
    else fmt(n)
  }

  function JoinWithCommas(parts: seq<string>): string {
    if parts == [] then ""
    else if |parts| == 1 then parts[0]
    else parts[0] + "," + JoinWithCommas(parts[1..])
  }

  /** `String(v)`: arrays join their elements with commas (undefined and null
      elements as empty strings), plain objects give "[object Object]". */
  function ToJsString(v: Value, fmt: real -> string): string
    decreases v
  {
    match v
    case Undefined => "undefined"
    case Null => "null"
    case Bool(b) => if b then "true" else "false"
    case Num(n) => NumberToString(n, fmt)
    case NaN => "NaN"
    case Str(s) => s
    case Arr(items) =>
      JoinWithCommas(seq(|items|, i requires 0 <= i < |items| =>
        if items[i].Undefined? || items[i].Null? then "" else ToJsString(items[i], fmt)))
    case Obj(_) => "[object Object]"
  }

  /** StringToNumber for the empty string and plain digit strings; every other
      string is read as NaN. */
  function StringToNumber(s: string): Value {
    if s == "" then Num(0.0)
    else if AllDigits(s) then Num(DigitsValue(s) as real)
    else NaN
  }

  /** `Number(v)`: objects and arrays go through their string form. */
  function ToNumber(v: Value, fmt: real -> string): (r: Value)
    ensures r.Num? || r.NaN?
  {
    match v
    case Undefined => NaN
    case Null => Num(0.0)
    case Bool(b) => Num(if b then 1.0 else 0.0)
    case Num(_) => v
    case NaN => NaN
    case Str(s) => StringToNumber(s)
    case _ => StringToNumber(ToJsString(v, fmt))
  }

  /** `v + 1`: a string, array or object operand makes it a concatenation. */
  function PlusOne(v: Value, fmt: real -> string): Value {
    if v.Str? || v.Arr? || v.Obj? then Str(ToJsString(v, fmt) + "1")
    else match ToNumber(v, fmt)
      case Num(n) => Num(n + 1.0)
      case _ => NaN
  }

  /** `v - 1` */
  function MinusOne(v: Value, fmt: real -> string): (r: Value)
    ensures r.Num? || r.NaN?
  {
    match ToNumber(v, fmt)
    case Num(n) => Num(n - 1.0)
    case _ => NaN
  }

  /** `Math.max(0, v)` for a number `v`. */
  function MaxWithZero(v: Value): (r: Value)
    requires v.Num? || v.NaN?
    ensures r.Num? ==> r.n >= 0.0
    ensures r.NaN? <==> v.NaN?
  {
    if v.NaN? then NaN else if v.n > 0.0 then v else Num(0.0)
  }
}
