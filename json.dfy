/**
 * JavaScript values as the settings routes and the client helpers see them:
 * parsed JSON plus `undefined`. An object is the sequence of its own
 * properties in insertion order. A number value is a real (JSON carries
 * neither NaN nor the infinities); converting other values to a number
 * can give either.
 */
module Json {
  import opened Wrappers
  import Strings
  import Tables
  import NumberText

  datatype Value =
    | Undefined
    | Null
    | Bool(b: bool)
    | Num(n: real)
    | Str(s: string)
    | Arr(items: seq<Value>)
    | Obj(fields: seq<Field>)

  datatype Field = Field(key: string, value: Value)

  /** The number of nodes of a value, for recursion over nested objects. */
  function Size(v: Value): nat
  {
    match v
    case Arr(items) => 1 + ItemsSize(items)
    case Obj(fields) => 1 + FieldsSize(fields)
    case _ => 1
  }

  function ItemsSize(items: seq<Value>): nat
  {
    if |items| == 0 then 0 else Size(items[0]) + ItemsSize(items[1..])
  }

  function FieldsSize(fields: seq<Field>): nat
  {
    if |fields| == 0 then 0 else Size(fields[0].value) + FieldsSize(fields[1..])
  }

  lemma {:induction false} ItemSmaller(items: seq<Value>, i: nat)
    requires i < |items|
    ensures Size(items[i]) <= ItemsSize(items)
    decreases i
  {
    if i > 0 {
      ItemSmaller(items[1..], i - 1);
    }
  }

  lemma {:induction false} FieldSmaller(fields: seq<Field>, i: nat)
    requires i < |fields|
    ensures Size(fields[i].value) <= FieldsSize(fields)
    decreases i
  {
    if i > 0 {
      FieldSmaller(fields[1..], i - 1);
    }
  }

  /** JavaScript truthiness: `undefined`, `null`, `false`, `0` and `""` are falsy. */
  predicate Truthy(v: Value)
  {
    !(v.Undefined? || v.Null? || v == Bool(false) || v == Num(0.0) || v == Str(""))
  }

  /** `typeof v === "object" && !Array.isArray(v)` for a truthy v: a plain object. */
  predicate IsPlainObject(v: Value)
  {
    Truthy(v) && v.Obj?
  }

  function Keys(fields: seq<Field>): (ks: seq<string>)
    ensures |ks| == |fields| && forall i :: 0 <= i < |fields| ==> ks[i] == fields[i].key
  {
    seq(|fields|, i requires 0 <= i < |fields| => fields[i].key)
  }

  /** Property names are unique in an object. */
  predicate DistinctKeys(fields: seq<Field>)
  {
    Tables.Distinct(Keys(fields))
  }

  /** `o[key]` on an object's properties; `undefined` when absent. */
  function Get(fields: seq<Field>, key: string): (r: Value)
    ensures key !in Keys(fields) ==> r == Undefined
    ensures DistinctKeys(fields) ==> forall i :: 0 <= i < |fields| && fields[i].key == key ==> r == fields[i].value
  {
    if |fields| == 0 then Undefined
    else if fields[0].key == key then fields[0].value
    else Get(fields[1..], key)
  }

  /** `o[key] = value`: an existing property keeps its place, a new one goes last. */
  function Put(fields: seq<Field>, key: string, value: Value): (r: seq<Field>)
    ensures Keys(r) == if key in Keys(fields) then Keys(fields) else Keys(fields) + [key]
  {
    if |fields| == 0 then [Field(key, value)]
    else if fields[0].key == key then [Field(key, value)] + fields[1..]
    else
      assert Keys(fields) == [fields[0].key] + Keys(fields[1..]);
      [fields[0]] + Put(fields[1..], key, value)
  }

  /** After `o[key] = value`, reading `key` gives `value` and every other property is unchanged. */
  lemma {:induction false} GetPut(fields: seq<Field>, key: string, value: Value, other: string)
    ensures Get(Put(fields, key, value), key) == value
    ensures other != key ==> Get(Put(fields, key, value), other) == Get(fields, other)
    decreases |fields|
  {
    if |fields| > 0 && fields[0].key != key {
      GetPut(fields[1..], key, value, other);
    }
  }

  /** Reading from an object with one more property at the end. */
  lemma {:induction false} GetSnoc(fields: seq<Field>, k: string, v: Value, key: string)
    ensures Get(fields + [Field(k, v)], key)
      == if key in Keys(fields) then Get(fields, key) else if key == k then v else Undefined
    decreases |fields|
  {
    if |fields| > 0 {
      assert (fields + [Field(k, v)])[1..] == fields[1..] + [Field(k, v)];
      assert Keys(fields) == [fields[0].key] + Keys(fields[1..]);
      GetSnoc(fields[1..], k, v, key);
    }
  }

  /** Putting a new or existing key keeps the names distinct. */
  lemma PutDistinct(fields: seq<Field>, key: string, value: Value)
    requires DistinctKeys(fields)
    ensures DistinctKeys(Put(fields, key, value))
  {
  }

  /**
   * The own enumerable properties of a value, as `{...v}` copies them and
   * `for (const key in v)` visits them: an object's properties, an array's
   * or a string's indices, nothing for any other value.
   */
  function Spread(v: Value): (r: seq<Field>)
    ensures v.Obj? ==> r == v.fields
    ensures forall i :: 0 <= i < |r| && r[i].value.Obj? ==> Size(r[i].value) < Size(v)
  {
    match v
    case Obj(fields) =>
      assert forall i :: 0 <= i < |fields| ==> Size(fields[i].value) < Size(v) by {
        forall i | 0 <= i < |fields|
          ensures Size(fields[i].value) < Size(v)
        {
          FieldSmaller(fields, i);
        }
      }
      fields
    case Arr(items) =>
      assert forall i :: 0 <= i < |items| ==> Size(items[i]) < Size(v) by {
        forall i | 0 <= i < |items|
          ensures Size(items[i]) < Size(v)
        {
          ItemSmaller(items, i);
        }
      }
      seq(|items|, i requires 0 <= i < |items| => Field(Strings.NatToString(i), items[i]))
    case Str(s) =>
      seq(|s|, i requires 0 <= i < |s| => Field(Strings.NatToString(i), Str([s[i]])))
    case _ => []
  }

  /**
   * JavaScript's conversion of a value compared with a number. A string is
   * read as numeric text; an array becomes the text of its elements joined
   * with commas, so the empty array reads as 0, a one-element array as its
   * element's text (empty for `null` and `undefined`, "true"/"false" for a
   * boolean, the number itself for a number) and any longer array, whose
   * text holds a comma, as NaN; an object's text "[object Object]" is NaN.
   */
  function ToNumber(v: Value): NumberText.Number
  {
    match v
    case Undefined => NumberText.NaN
    case Null => NumberText.Finite(0.0)
    case Bool(b) => NumberText.Finite(if b then 1.0 else 0.0)
    case Num(n) => NumberText.Finite(n)
    case Str(s) => NumberText.StringToNumber(s)
    case Arr(items) =>
      if |items| == 0 then NumberText.Finite(0.0)
      else if |items| > 1 then NumberText.NaN
      else (match items[0]
        case Undefined => NumberText.Finite(0.0)
        case Bool(_) => NumberText.NaN
        case _ => ToNumber(items[0]))
    case Obj(_) => NumberText.NaN
  }

  /** `v < lo || v > hi`: false when v converts to NaN, true for an infinity. */
  predicate OutOfRange(v: Value, lo: real, hi: real)
  {
    match ToNumber(v)
    case Finite(n) => n < lo || n > hi
    case Infinite(_) => true
    case NaN => false
  }

  /**
   * Integer text compares as the integer, blank text as 0, and wrapping a
   * value in a one-element array does not change how a number or a string
   * compares.
   */
  lemma TextComparesAsNumber(i: int, blank: string, s: string, n: real)
    requires Strings.IsBlank(blank)
    ensures ToNumber(Str(Strings.IntToString(i))) == ToNumber(Num(i as real))
    ensures ToNumber(Str(blank)) == ToNumber(Num(0.0)) == ToNumber(Arr([]))
    ensures ToNumber(Arr([Str(s)])) == ToNumber(Str(s)) && ToNumber(Arr([Num(n)])) == ToNumber(Num(n))
  {
    IntTextCompares(i);
    BlankTextCompares(blank);
    SingletonCompares(s, n);
  }

  lemma IntTextCompares(i: int)
    ensures ToNumber(Str(Strings.IntToString(i))) == ToNumber(Num(i as real)) == NumberText.Finite(i as real)
  {
    NumberText.IntTextReadsBack(i);
    FiniteText(Strings.IntToString(i), i as real);
  }

  lemma FiniteText(s: string, n: real)
    requires NumberText.StringToNumber(s) == NumberText.Finite(n)
    ensures ToNumber(Str(s)) == ToNumber(Num(n))
  {
  }

  lemma BlankTextCompares(blank: string)
    requires Strings.IsBlank(blank)
    ensures ToNumber(Str(blank)) == ToNumber(Num(0.0)) == ToNumber(Arr([]))
  {
    NumberText.BlankIsZero(blank);
  }

  lemma SingletonCompares(s: string, n: real)
    ensures ToNumber(Arr([Str(s)])) == ToNumber(Str(s)) && ToNumber(Arr([Num(n)])) == ToNumber(Num(n))
  {
  }

  /** An array of two or more elements, and text holding a comma, compare as NaN. */
  lemma CommaIsNaN(items: seq<Value>, s: string, i: nat)
    requires i < |Strings.Trim(s)| && Strings.Trim(s)[i] == ','
    ensures |items| > 1 ==> ToNumber(Arr(items)) == NumberText.NaN
    ensures ToNumber(Str(s)) == NumberText.NaN
  {
    NumberText.ForeignCharIsNaN(s, i);
    NaNText(s);
  }

  lemma NaNText(s: string)
    requires NumberText.StringToNumber(s) == NumberText.NaN
    ensures ToNumber(Str(s)) == NumberText.NaN
  {
  }

  /** A value that converts to the finite number x is out of range exactly when x is. */
  lemma FiniteRange(v: Value, x: real, lo: real, hi: real)
    requires ToNumber(v) == NumberText.Finite(x)
    ensures OutOfRange(v, lo, hi) <==> x < lo || x > hi
  {
  }
}
