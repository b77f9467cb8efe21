/** The JavaScript values the binding layer stores, compares and passes on,
    the constructors a declaration names as a type, truthiness, property
    reads, and the `JSON.stringify` comparison. */
module Js {
  import opened Dicts

  /** The constructors used as declared parameter and result types. */
  datatype Ctor = Number | String | Array | Object | Boolean

  /** A JavaScript value. Numbers are integers here. */
  datatype Value =
    | Undefined
    | Null
    | Bool(b: bool)
    | Num(n: int)
    | Str(s: string)
    | Arr(items: seq<Value>)
    | Obj(fields: Dict<Value>)

  /** What a thrown exception carries. */
  datatype Fault =
    | TypeError(what: string)
    | Thrown(message: string)

  datatype Result<+T> = Ok(value: T) | Err(fault: Fault)

  /** What `Object.keys`, `Object.entries` and `Object.assign` throw when
      handed `undefined` or `null`. */
  const NotAnObject: Fault := TypeError("Cannot convert undefined or null to object")

  /** The value a constructor returns when called with no argument:
      `Number()`, `String()`, `Array()`, `Object()`, `Boolean()`. */
  function Zero(c: Ctor): Value
  {
    match c
    case Number => Num(0)
    case String => Str("")
    case Array => Arr([])
    case Object => Obj([])
    case Boolean => Bool(false)
  }

  predicate Truthy(v: Value)
  {
    match v
    case Undefined => false
    case Null => false
    case Bool(b) => b
    case Num(n) => n != 0
    case Str(s) => s != ""
    case Arr(_) => true
    case Obj(_) => true
  }

  /** A string-valued property that may be absent, as `${x}` prints it. */
  function Text(s: Option<string>): string
  {
    match s
    case Some(t) => t
    case None => "undefined"
  }

  /** A string-valued property that may be absent, as a condition reads it. */
  predicate TruthyText(s: Option<string>)
  {
    s.Some? && s.value != ""
  }

  predicate IsDigit(c: char)
  {
    '0' <= c <= '9'
  }

  predicate AllDigits(k: string)
  {
    forall i :: 0 <= i < |k| ==> IsDigit(k[i])
  }

  /** A canonical array index key: decimal digits with no leading zero, as
      `String(n)` prints a natural number. */
  predicate IsIndexKey(k: string)
  {
    |k| > 0 && AllDigits(k) && (k[0] == '0' ==> |k| == 1)
  }

  /** The number a string of decimal digits denotes. */
  function DigitsValue(k: string): nat
    requires AllDigits(k)
    decreases |k|
  {
    if k == [] then 0
    else DigitsValue(k[..|k| - 1]) * 10 + (k[|k| - 1] as int - '0' as int)
  }

  function DigitChar(d: nat): char
    requires d < 10
  {
    ('0' as int + d) as char
  }

  /** `String(n)` for a natural number. */
  function IndexText(n: nat): string
    decreases n
  {
    if n < 10 then [DigitChar(n)] else IndexText(n / 10) + [DigitChar(n % 10)]
  }

  /** `v[k]`: reading a property of `undefined` or `null` throws; a property an
      object lacks is `undefined`. Arrays and strings have their `length` and
      one property per index; a string's index property is a one-character
      string. Booleans and numbers have no own properties. */
  function Prop(v: Value, k: string): (r: Result<Value>)
    ensures r.Err? <==> v.Undefined? || v.Null?
    ensures v.Obj? ==> r == Ok(GetOr(v.fields, k, Undefined))
    ensures v.Arr? && k == "length" ==> r == Ok(Num(|v.items|))
    ensures v.Str? && k == "length" ==> r == Ok(Num(|v.s|))
    ensures v.Arr? && IsIndexKey(k) ==> r == Ok(if DigitsValue(k) < |v.items| then v.items[DigitsValue(k)] else Undefined)
    ensures v.Str? && IsIndexKey(k) ==> r == Ok(if DigitsValue(k) < |v.s| then Str([v.s[DigitsValue(k)]]) else Undefined)
    ensures (v.Arr? || v.Str?) && k != "length" && !IsIndexKey(k) ==> r == Ok(Undefined)
    ensures v.Bool? || v.Num? ==> r == Ok(Undefined)
  {
    match v
    case Undefined => Err(TypeError("Cannot read properties of undefined (reading '" + k + "')"))
    case Null => Err(TypeError("Cannot read properties of null (reading '" + k + "')"))
    case Obj(fields) => Ok(GetOr(fields, k, Undefined))
    case Arr(items) =>
      if k == "length" then Ok(Num(|items|))
      else if IsIndexKey(k) && DigitsValue(k) < |items| then Ok(items[DigitsValue(k)])
      else Ok(Undefined)
    case Str(t) =>
      if k == "length" then Ok(Num(|t|))
      else if IsIndexKey(k) && DigitsValue(k) < |t| then Ok(Str([t[DigitsValue(k)]]))
      else Ok(Undefined)
    case _ => Ok(Undefined)
  }

  /** `String(n)` is an index key that denotes `n`. */
  lemma {:induction false} IndexTextIsKey(n: nat)
    ensures IsIndexKey(IndexText(n)) && DigitsValue(IndexText(n)) == n
    decreases n
  {
    if n >= 10 {
      IndexTextIsKey(n / 10);
      var t := IndexText(n);
      var front := IndexText(n / 10);
      assert t[..|t| - 1] == front;
      assert t[0] == front[0];
      assert forall i :: 0 <= i < |t| ==> IsDigit(t[i]) by {
        forall i | 0 <= i < |t| ensures IsDigit(t[i]) {
          if i < |t| - 1 { assert t[i] == front[i]; }
        }
      }
    }
  }

  lemma {:induction false} LeadingDigitPositive(k: string)
    requires AllDigits(k) && |k| > 0 && k[0] != '0'
    ensures DigitsValue(k) > 0
    decreases |k|
  {
    if |k| > 1 {
      var front := k[..|k| - 1];
      assert front[0] == k[0];
      LeadingDigitPositive(front);
    }
  }

  /** Every index key is `String(n)` of the number it denotes. */
  lemma {:induction false} IndexKeyIsText(k: string)
    requires IsIndexKey(k)
    ensures IndexText(DigitsValue(k)) == k
    decreases |k|
  {
    var n := DigitsValue(k);
    var d := k[|k| - 1] as int - '0' as int;
    if |k| == 1 {
      assert DigitsValue(k[..0]) == 0;
      assert [DigitChar(n)] == k;
    } else {
      var front := k[..|k| - 1];
      assert front[0] == k[0];
      assert IsIndexKey(front);
      IndexKeyIsText(front);
      LeadingDigitPositive(front);
      var m := DigitsValue(front);
      assert n == m * 10 + d;
      assert n / 10 == m && n % 10 == d;
      assert k == front + [DigitChar(d)];
    }
  }

  /** Reading `String(i)` of an array gives its item `i` (an index past the
      end gives `undefined`); of a string, its character `i`. */
  lemma IndexRead(v: Value, i: nat)
    requires v.Arr? || v.Str?
    ensures v.Arr? && i < |v.items| ==> Prop(v, IndexText(i)) == Ok(v.items[i])
    ensures v.Str? && i < |v.s| ==> Prop(v, IndexText(i)) == Ok(Str([v.s[i]]))
    ensures v.Arr? && i >= |v.items| ==> Prop(v, IndexText(i)) == Ok(Undefined)
  {
    IndexTextIsKey(i);
  }

  /** The value `JSON.parse(JSON.stringify(v))` would rebuild: object fields
      holding `undefined` are dropped, array items holding `undefined` become
      `null`; a top-level `undefined` stays (it stringifies to `undefined`). */
  function Canon(v: Value): Value
    decreases v, 1
  {
    match v
    case Arr(items) => Arr(CanonItems(v, items))
    case Obj(fields) => Obj(CanonFields(v, fields))
    case _ => v
  }

  function CanonItems(ghost parent: Value, items: seq<Value>): (r: seq<Value>)
    requires forall i :: 0 <= i < |items| ==> items[i] < parent
    ensures |r| == |items|
    decreases parent, 0, |items|
  {
    if items == [] then []
    else [if items[0] == Undefined then Null else Canon(items[0])] + CanonItems(parent, items[1..])
  }

  function CanonFields(ghost parent: Value, fields: Dict<Value>): (r: Dict<Value>)
    requires forall i :: 0 <= i < |fields| ==> fields[i].1 < parent
    ensures r == [] <==> forall i :: 0 <= i < |fields| ==> fields[i].1 == Undefined
    decreases parent, 0, |fields|
  {
    if fields == [] then []
    else
      var rest := CanonFields(parent, fields[1..]);
      assert (forall i :: 0 <= i < |fields[1..]| ==> fields[1..][i].1 == Undefined) <==>
             (forall i :: 1 <= i < |fields| ==> fields[i].1 == Undefined) by {
        assert forall i :: 1 <= i < |fields| ==> fields[1..][i - 1] == fields[i];
      }
      if fields[0].1 == Undefined then rest
      else [(fields[0].0, Canon(fields[0].1))] + rest
  }

  /** `JSON.stringify(a) === JSON.stringify(b)`. */
  predicate JsonEq(a: Value, b: Value)
  {
    Canon(a) == Canon(b)
  }

  /** A value some code reads as "still at its type's zero value": it
      stringifies like the constructor called with no argument. */
  predicate IsUnset(v: Value, c: Ctor)
  {
    JsonEq(v, Zero(c))
  }

  /** Which values count as unset, constructor by constructor. */
  lemma UnsetIff(v: Value, c: Ctor)
    ensures IsUnset(v, c) <==>
            match c
            case Number => v == Num(0)
            case String => v == Str("")
            case Array => v == Arr([])
            case Boolean => v == Bool(false)
            case Object => v.Obj? && forall i :: 0 <= i < |v.fields| ==> v.fields[i].1 == Undefined
  {
    assert Canon(Zero(c)) == Zero(c);
    match v
    case Arr(items) =>
      assert |CanonItems(v, items)| == |items|;
    case Obj(fields) =>
    case _ =>
  }
}
