/**
 * The pieces of JavaScript semantics that the modelled chart code relies on:
 * `undefined`/`null` as an Option, the numeric built-ins `Math.round` and
 * `Math.ceil`, the index rules of `Array.prototype.splice`, `slice` and
 * `indexOf`, a small dynamic value type with strict equality (`===`), and
 * the library-wide default font size.
 */
module Js {

  /** `Chart.defaults.global.defaultFontSize`, the font size of any text that sets none. */
  const DefaultFontSize: real := 12.0

  /** `None` stands for `undefined` (or `null`, where the code treats both alike). */
  datatype Option<+T> = None | Some(value: T)

  /** A dynamically typed JavaScript value as it appears in a model, a view or a data array. */
  datatype Value =
    | Num(x: real)      // a finite number
    | NaN               // the number NaN
    | Str(s: string)
    | Bool(b: bool)
    | Obj(id: nat)      // any object, compared by identity
    | Null

  /** `a === b`: structural on primitives, by identity on objects, and NaN is equal to nothing. */
  predicate StrictEquals(a: Value, b: Value)
  {
    a == b && !a.NaN?
  }

  /** `typeof v === 'number'` (NaN is a number too). */
  predicate IsNumberType(v: Value)
  {
    v.Num? || v.NaN?
  }

  /**
   * `Number(v)`, the coercion behind `isNaN(v)` and arithmetic: `None` is NaN.
   * Strings other than the empty one are taken as not numeric.
   */
  function ToNumber(v: Value): (r: Option<real>)
    ensures v.Num? ==> r == Some(v.x)
    ensures v.NaN? || v.Obj? ==> r == None
  {
    match v
    case Num(x) => Some(x)
    case NaN => None
    case Str(s) => if s == "" then Some(0.0) else None
    case Bool(b) => Some(if b then 1.0 else 0.0)
    case Obj(_) => None
    case Null => Some(0.0)
  }

  /** The global `isNaN` applied to a property read, where `None` is `undefined`. */
  predicate IsNaNOf(v: Option<Value>)
  {
    v.None? || ToNumber(v.value).None?
  }

  /** `Math.round`: rounds to the nearest integer, halves upwards. */
  function Round(x: real): (r: int)
    ensures x - 0.5 < r as real <= x + 0.5
  {
    (x + 0.5).Floor
  }

  /** The product of two non-negative numbers is non-negative. */
  lemma NonNegativeProduct(x: real, y: real)
    requires x >= 0.0 && y >= 0.0
    ensures x * y >= 0.0
  {
  }

  /** `Math.round` never reverses the order of its arguments. */
  lemma RoundMonotone(x: real, y: real)
    requires x <= y
    ensures Round(x) <= Round(y)
  {
    assert Round(x) as real <= x + 0.5 <= y + 0.5 < Round(y) as real + 1.0;
  }

  /** `Math.ceil`. */
  function Ceil(x: real): (r: int)
    ensures x <= r as real < x + 1.0
  {
    -((-x).Floor)
  }

  function Min(a: real, b: real): real { if a <= b then a else b }

  function Max(a: real, b: real): real { if a >= b then a else b }

  /**
   * Where a relative index lands in an array of length `len`, as `splice` and
   * `slice` compute it: a negative index counts from the end, and the result is
   * clamped to `[0, len]`.
   */
  function RelativeIndex(index: int, len: nat): (k: nat)
    ensures k <= len
    ensures 0 <= index ==> k == if index <= len then index else len
    ensures index < 0 ==> k == if len + index < 0 then 0 else len + index
  {
    if index < 0 then (if len + index < 0 then 0 else len + index)
    else if index <= len then index
    else len
  }

  /** How many elements `s.splice(start, deleteCount, ...)` removes. */
  function SpliceDeleteCount(len: nat, start: int, deleteCount: int): (d: nat)
    ensures RelativeIndex(start, len) + d <= len
  {
    var k := RelativeIndex(start, len);
    if deleteCount < 0 then 0
    else if deleteCount <= len - k then deleteCount
    else len - k
  }

  /** The array `s.splice(start, deleteCount, ...items)` leaves behind. */
  function SpliceSeq<T>(s: seq<T>, start: int, deleteCount: int, items: seq<T>): (r: seq<T>)
    ensures |r| == |s| - SpliceDeleteCount(|s|, start, deleteCount) + |items|
  {
    var k := RelativeIndex(start, |s|);
    s[..k] + items + s[k + SpliceDeleteCount(|s|, start, deleteCount)..]
  }

  /** `s.splice(start, 0, x)` inserts `x` where the relative index `start` lands. */
  lemma SpliceInsertsOne<T>(s: seq<T>, start: int, x: T)
    ensures var k := RelativeIndex(start, |s|);
      SpliceSeq(s, start, 0, [x]) == s[..k] + [x] + s[k..]
  {
  }

  /** The array `s.splice(start, deleteCount)` returns: the removed run. */
  function SpliceRemoved<T>(s: seq<T>, start: int, deleteCount: int): (r: seq<T>)
    ensures |r| == SpliceDeleteCount(|s|, start, deleteCount)
  {
    var k := RelativeIndex(start, |s|);
    s[k..k + SpliceDeleteCount(|s|, start, deleteCount)]
  }

  /** `s.slice(begin, end)`. */
  function Slice<T>(s: seq<T>, begin: int, end: int): (r: seq<T>)
    ensures |r| <= |s|
  {
    var b := RelativeIndex(begin, |s|);
    var e := RelativeIndex(end, |s|);
    if e <= b then [] else s[b..e]
  }

  /** `s.indexOf(x)` over values compared with `===`: the first match, or -1. */
  function IndexOf(s: seq<Value>, x: Value): (i: int)
    ensures -1 <= i < |s|
    ensures i == -1 <==> forall j :: 0 <= j < |s| ==> !StrictEquals(s[j], x)
    ensures 0 <= i ==> StrictEquals(s[i], x) && forall j :: 0 <= j < i ==> !StrictEquals(s[j], x)
  {
    if |s| == 0 then -1
    else if StrictEquals(s[0], x) then 0
    else
      var i := IndexOf(s[1..], x);
      if i == -1 then -1 else i + 1
  }

  /** `s.indexOf(x)` over objects compared by identity: the first match, or -1. */
  function Find<T(==)>(s: seq<T>, x: T): (i: int)
    ensures -1 <= i < |s|
    ensures i == -1 <==> x !in s
    ensures 0 <= i ==> s[i] == x && x !in s[..i]
  {
    if |s| == 0 then -1
    else if s[0] == x then 0
    else
      var i := Find(s[1..], x);
      assert s[1..] == s[1..][..|s| - 1];
      if i == -1 then -1 else (assert s[..i + 1] == [s[0]] + s[1..][..i]; i + 1)
  }

  /** `var i = s.indexOf(x); if (i !== -1) s.splice(i, 1);` */
  function RemoveFirst<T(==)>(s: seq<T>, x: T): seq<T>
  {
    var i := Find(s, x);
    if i == -1 then s else s[..i] + s[i + 1..]
  }

  /** Removing the first occurrence takes exactly one copy of `x` out, and nothing when there is none. */
  lemma RemoveFirstCounts<T>(s: seq<T>, x: T)
    ensures x !in s ==> RemoveFirst(s, x) == s
    ensures x in s ==> multiset(RemoveFirst(s, x)) == multiset(s) - multiset{x}
    ensures |RemoveFirst(s, x)| == if x in s then |s| - 1 else |s|
  {
    var i := Find(s, x);
    if i != -1 {
      assert s == s[..i] + [x] + s[i + 1..];
    }
  }

  /** `s.reverse()`. */
  function Reverse<T>(s: seq<T>): (r: seq<T>)
    ensures |r| == |s|
    ensures forall i :: 0 <= i < |s| ==> r[i] == s[|s| - 1 - i]
  {
    if |s| == 0 then [] else Reverse(s[1..]) + [s[0]]
  }

  /** Reversing twice gives back the original order. */
  lemma ReverseReverse<T>(s: seq<T>)
    ensures Reverse(Reverse(s)) == s
  {
  }

  /** Reversal keeps exactly the same members. */
  lemma ReverseMembers<T>(s: seq<T>)
    ensures forall x :: x in Reverse(s) <==> x in s
  {
    var r := Reverse(s);
    forall x | x in s ensures x in r {
      var i :| 0 <= i < |s| && s[i] == x;
      assert r[|s| - 1 - i] == x;
    }
  }

  /** Reversal keeps the elements (as a multiset). */
  lemma {:induction false} ReversePermutes<T>(s: seq<T>)
    ensures multiset(Reverse(s)) == multiset(s)
  {
    if |s| > 0 {
      ReversePermutes(s[1..]);
      assert s == [s[0]] + s[1..];
    }
  }
}
