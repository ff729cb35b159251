/**
 * JavaScript values as the transformer sees them once JSON text has been
 * parsed, with the small part of the language the transformer relies on:
 * property reads (and the TypeError they raise on null/undefined),
 * truthiness, `String(...)` coercion, decimal number formatting and
 * `JSON.stringify`.
 */
module JsValue {

  /** A value produced by parsing JSON(5) text, or built by the transformer.
      Objects keep their properties in JavaScript property order; numbers
      are integers (the payloads handled here carry integer epoch times). */
  datatype Value =
    | Undefined
    | Null
    | Bool(b: bool)
    | Num(n: int)
    | Str(s: string)
    | Arr(items: seq<Value>)
    | Obj(fields: seq<(string, Value)>)

  /** The completion of a JavaScript evaluation: a normal value, or an
      exception that propagates to the nearest enclosing `catch`. */
  datatype Completion<T> = Normal(value: T) | Throw

  datatype Option<T> = None | Some(value: T)

  /** JavaScript truthiness (ToBoolean). */
  predicate Truthy(v: Value)
  {
    match v
    case Undefined => false
    case Null => false
    case Bool(b) => b
    case Num(n) => n != 0
    case Str(s) => s != ""
    case Arr(_) => true
    case Obj(_) => true
  }

  predicate IsNullish(v: Value)
  {
    v.Undefined? || v.Null?
  }

  /* ---------------- decimal digits ---------------- */

  predicate IsDigit(c: char)
  {
    '0' <= c <= '9'
  }

  function DigitChar(d: int): (c: char)
    requires 0 <= d < 10
    ensures IsDigit(c)
  {
    ('0' as int + d) as char
  }

  /** `n.toString()` for a non-negative integer. */
  function NatToDecimal(n: nat): (s: string)
    ensures |s| >= 1
    ensures forall i :: 0 <= i < |s| ==> IsDigit(s[i])
    ensures n < 10 <==> |s| == 1
    ensures n >= 10 ==> s[0] != '0'
    decreases n
  {
    if n < 10 then [DigitChar(n)] else NatToDecimal(n / 10) + [DigitChar(n % 10)]
  }

  /** `n.toString()` for any integer. */
  function IntToDecimal(n: int): string
  {
    if n < 0 then "-" + NatToDecimal(-n) else NatToDecimal(n)
  }

  /** The value of a string of decimal digits. */
  function DecimalValue(s: string): nat
    requires forall i :: 0 <= i < |s| ==> IsDigit(s[i])
  {
    if s == [] then 0
    else
      assert IsDigit(s[|s| - 1]);
      DecimalValue(s[..|s| - 1]) * 10 + (s[|s| - 1] as int - '0' as int)
  }

  lemma {:induction false} DecimalRoundTrip(n: nat)
    ensures DecimalValue(NatToDecimal(n)) == n
    decreases n
  {
    var s := NatToDecimal(n);
    if n >= 10 {
      DecimalRoundTrip(n / 10);
      assert s[..|s| - 1] == NatToDecimal(n / 10);
    }
  }

  /** The array index a property name denotes, if it is a canonical
      numeric string ("0", "1", ..., no leading zero). */
  function CanonicalIndex(k: string): Option<nat>
  {
    if |k| >= 1 && (forall i :: 0 <= i < |k| ==> IsDigit(k[i])) && (k[0] != '0' || |k| == 1)
    then Some(DecimalValue(k))
    else None
  }

  /** A name taken for an index is that index written in decimal. */
  lemma {:induction false} CanonicalIndexSound(k: string)
    ensures CanonicalIndex(k).Some? ==> NatToDecimal(CanonicalIndex(k).value) == k
    decreases |k|
  {
    if CanonicalIndex(k).Some? && |k| > 1 {
      var c := k[|k| - 1];
      var d := c as int - '0' as int;
      var p := k[..|k| - 1];
      assert CanonicalIndex(p) == Some(DecimalValue(p));
      CanonicalIndexSound(p);
      var m := DecimalValue(p);
      assert m >= 1 by { NonZeroLeadingDigit(p); }
      assert DecimalValue(k) == m * 10 + d;
      DivModUnique(m * 10 + d, 10, m, d);
      assert NatToDecimal(m * 10 + d) == NatToDecimal(m) + [DigitChar(d)];
      assert k == p + [c];
    } else if CanonicalIndex(k).Some? {
      assert k[..0] == [];
      assert DecimalValue(k) == k[0] as int - '0' as int;
    }
  }

  /** The quotient and remainder of a division are unique. */
  lemma DivModUnique(y: int, m: int, a: int, r: int)
    requires 0 < m && 0 <= r < m && y == m * a + r
    ensures y / m == a && y % m == r
  {
    var t := y / m - a;
    assert m * t == r - y % m;
    if t > 0 {
      MulAtLeast(m, t);
    } else if t < 0 {
      MulAtLeast(m, -t);
    }
  }

  lemma MulAtLeast(m: int, t: int)
    requires 0 < m && 0 < t
    ensures m * t >= m
  {
    assert m * t == m + m * (t - 1);
    assert m * (t - 1) >= 0;
  }

  lemma {:induction false} NonZeroLeadingDigit(s: string)
    requires |s| >= 1 && (forall i :: 0 <= i < |s| ==> IsDigit(s[i])) && s[0] != '0'
    ensures DecimalValue(s) >= 1
    decreases |s|
  {
    if |s| > 1 {
      NonZeroLeadingDigit(s[..|s| - 1]);
    }
  }

  /** Array indices and their names correspond one to one. */
  lemma IndexNameRoundTrip(n: nat)
    ensures CanonicalIndex(NatToDecimal(n)) == Some(n)
  {
    DecimalRoundTrip(n);
  }

  /* ---------------- property access ---------------- */

  /** The names of an object's own properties, in order. */
  function KeysOf(fields: seq<(string, Value)>): (ks: seq<string>)
    ensures |ks| == |fields|
    ensures forall i :: 0 <= i < |fields| ==> ks[i] == fields[i].0
  {
    seq(|fields|, i requires 0 <= i < |fields| => fields[i].0)
  }

  /** The value of property `k` among an object's own properties, or
      undefined when there is none. A JavaScript object has one property per
      name (`JSON.parse` keeps the last of repeated names), so an `Obj`
      whose names repeat stands for no JavaScript object; the values the
      transformer builds keep names distinct (`SetFieldKeepsDistinct`), and
      on the others `Lookup` takes the first. */
  function Lookup(fields: seq<(string, Value)>, k: string): (v: Value)
    ensures k !in KeysOf(fields) ==> v == Undefined
    ensures v != Undefined ==> (k, v) in fields
  {
    if fields == [] then Undefined
    else if fields[0].0 == k then fields[0].1
    else
      assert KeysOf(fields) == [fields[0].0] + KeysOf(fields[1..]);
      Lookup(fields[1..], k)
  }

  /** `v[k]` (also written `v.k`): reading a property of null or undefined
      throws a TypeError; arrays and strings expose their indices and
      `length`; other primitives have none of the properties read here. */
  function Get(v: Value, k: string): (r: Completion<Value>)
    ensures r.Throw? <==> IsNullish(v)
    ensures v.Obj? ==> r == Normal(Lookup(v.fields, k))
  {
    match v
    case Undefined => Throw
    case Null => Throw
    case Obj(fs) => Normal(Lookup(fs, k))
    case Arr(xs) =>
      if k == "length" then Normal(Num(|xs|))
      else (match CanonicalIndex(k)
            case Some(i) => if i < |xs| then Normal(xs[i]) else Normal(Undefined)
            case None => Normal(Undefined))
    case Str(s) =>
      if k == "length" then Normal(Num(|s|))
      else (match CanonicalIndex(k)
            case Some(i) => if i < |s| then Normal(Str([s[i]])) else Normal(Undefined)
            case None => Normal(Undefined))
    case _ => Normal(Undefined)
  }

  /** `v?.k`: optional chaining never throws. */
  function OptGet(v: Value, k: string): (r: Value)
    ensures IsNullish(v) ==> r == Undefined
    ensures !IsNullish(v) ==> Get(v, k) == Normal(r)
  {
    if IsNullish(v) then Undefined else Get(v, k).value
  }

  /** `o[k] = x` on an object: replaces the property in place if it exists,
      otherwise appends it (insertion order). */
  function SetField(fields: seq<(string, Value)>, k: string, x: Value): seq<(string, Value)>
  {
    if fields == [] then [(k, x)]
    else if fields[0].0 == k then [(k, x)] + fields[1..]
    else [fields[0]] + SetField(fields[1..], k, x)
  }

  /** After `o[k] = x`, reading `k` gives `x` and every other property
      reads as before. */
  lemma {:induction false} SetFieldLookup(fields: seq<(string, Value)>, k: string, x: Value, j: string)
    ensures Lookup(SetField(fields, k, x), j) == if j == k then x else Lookup(fields, j)
  {
    if fields != [] && fields[0].0 != k {
      SetFieldLookup(fields[1..], k, x, j);
      assert SetField(fields, k, x)[1..] == SetField(fields[1..], k, x);
    } else if fields != [] {
      assert SetField(fields, k, x)[1..] == fields[1..];
    }
  }

  lemma KeysOfCons(f: (string, Value), fs: seq<(string, Value)>)
    ensures KeysOf([f] + fs) == [f.0] + KeysOf(fs)
  {
  }

  /** `o[k] = x` keeps the property order; a new name goes last. */
  lemma {:induction false} SetFieldKeys(fields: seq<(string, Value)>, k: string, x: Value)
    ensures KeysOf(SetField(fields, k, x)) == if k in KeysOf(fields) then KeysOf(fields) else KeysOf(fields) + [k]
  {
    if fields != [] {
      var tail := KeysOf(fields[1..]);
      assert fields == [fields[0]] + fields[1..];
      KeysOfCons(fields[0], fields[1..]);
      if fields[0].0 == k {
        KeysOfCons((k, x), fields[1..]);
      } else {
        SetFieldKeys(fields[1..], k, x);
        KeysOfCons(fields[0], SetField(fields[1..], k, x));
        assert k in KeysOf(fields) <==> k in tail;
        if k !in tail {
          assert [fields[0].0] + (tail + [k]) == ([fields[0].0] + tail) + [k];
        }
      }
    }
  }

  /** No property name occurs twice. */
  predicate DistinctKeys(fields: seq<(string, Value)>)
  {
    var ks := KeysOf(fields);
    forall i, j :: 0 <= i < j < |ks| ==> ks[i] != ks[j]
  }

  /** Assignment never makes a name occur twice. */
  lemma SetFieldKeepsDistinct(fields: seq<(string, Value)>, k: string, x: Value)
    requires DistinctKeys(fields)
    ensures DistinctKeys(SetField(fields, k, x))
  {
    SetFieldKeys(fields, k, x);
  }

  /** `o[k] = x`: on an object the property is set; the transformer only
      assigns properties of objects. */
  function SetProp(v: Value, k: string, x: Value): (r: Value)
    ensures v.Obj? ==> r.Obj? && Get(r, k) == Normal(x)
    ensures v.Obj? ==> forall j :: j != k ==> Get(r, j) == Get(v, j)
    ensures !v.Obj? ==> r == v
  {
    match v
    case Obj(fs) =>
      assert forall j :: Lookup(SetField(fs, k, x), j) == if j == k then x else Lookup(fs, j) by {
        forall j { SetFieldLookup(fs, k, x, j); }
      }
      Obj(SetField(fs, k, x))
    case _ => v
  }

  /* ---------------- String(...) coercion ---------------- */

  /** `String(v)`, as applied by `JSON5.parse` and `new Date` to an argument
      that is not a string. */
  function CoerceToString(v: Value): string
    decreases v, 1
  {
    match v
    case Undefined => "undefined"
    case Null => "null"
    case Bool(b) => if b then "true" else "false"
    case Num(n) => IntToDecimal(n)
    case Str(s) => s
    case Arr(xs) => JoinElements(v, xs)
    case Obj(_) => "[object Object]"
  }

  /** `Array.prototype.join(",")`: null and undefined elements become "". */
  function JoinElements(ghost parent: Value, xs: seq<Value>): string
    requires forall i :: 0 <= i < |xs| ==> xs[i] < parent
    decreases parent, 0, |xs|
  {
    if xs == [] then ""
    else
      var head := if IsNullish(xs[0]) then "" else CoerceToString(xs[0]);
      if |xs| == 1 then head else head + "," + JoinElements(parent, xs[1..])
  }

  /* ---------------- whitespace ---------------- */

  /** The JavaScript white-space and line-terminator characters (the
      regular-expression class `\s`). */
  predicate IsSpace(c: char)
  {
    c == '\t' || c == '\n' || c == '\U{000B}' || c == '\U{000C}' || c == '\r' || c == ' '
    || c == '\U{00A0}' || c == '\U{1680}' || ('\U{2000}' <= c <= '\U{200A}')
    || c == '\U{2028}' || c == '\U{2029}' || c == '\U{202F}' || c == '\U{205F}'
    || c == '\U{3000}' || c == '\U{FEFF}'
  }

  /* ---------------- JSON.stringify ---------------- */

  function HexDigit(d: int): char
    requires 0 <= d < 16
  {
    "0123456789abcdef"[d]
  }

  /** How `JSON.stringify` writes one character of a string. */
  function QuoteChar(c: char): (r: string)
    ensures |r| >= 1
  {
    if c == '"' then "\\\""
    else if c == '\\' then "\\\\"
    else if c == '\U{0008}' then "\\b"
    else if c == '\U{000C}' then "\\f"
    else if c == '\n' then "\\n"
    else if c == '\r' then "\\r"
    else if c == '\t' then "\\t"
    else if c < ' ' then "\\u00" + [HexDigit(c as int / 16), HexDigit(c as int % 16)]
    else [c]
  }

  function QuoteChars(s: string): string
  {
    if s == [] then "" else QuoteChar(s[0]) + QuoteChars(s[1..])
  }

  /** A string as a JSON string literal. */
  function QuoteJson(s: string): string
  {
    "\"" + QuoteChars(s) + "\""
  }

  /** `JSON.stringify(v)`: undefined at the top level gives undefined (None);
      undefined array elements are written as null, undefined properties are
      left out. */
  function Stringify(v: Value): (r: Option<string>)
    ensures r.None? <==> v.Undefined?
    decreases v, 1
  {
    match v
    case Undefined => None
    case Null => Some("null")
    case Bool(b) => Some(if b then "true" else "false")
    case Num(n) => Some(IntToDecimal(n))
    case Str(s) => Some(QuoteJson(s))
    case Arr(xs) => Some("[" + StringifyElements(v, xs) + "]")
    case Obj(fs) => Some("{" + StringifyFields(v, fs, true) + "}")
  }

  function StringifyElements(ghost parent: Value, xs: seq<Value>): string
    requires forall i :: 0 <= i < |xs| ==> xs[i] < parent
    decreases parent, 0, |xs|
  {
    if xs == [] then ""
    else
      var head := match Stringify(xs[0]) case Some(t) => t case None => "null";
      if |xs| == 1 then head else head + "," + StringifyElements(parent, xs[1..])
  }

  /** The members of an object, comma-separated; `first` is false once a
      member has been written. */
  function StringifyFields(ghost parent: Value, fs: seq<(string, Value)>, first: bool): string
    requires forall i :: 0 <= i < |fs| ==> fs[i].1 < parent
    decreases parent, 0, |fs|
  {
    if fs == [] then ""
    else match Stringify(fs[0].1)
      case None => StringifyFields(parent, fs[1..], first)
      case Some(t) =>
        (if first then "" else ",") + QuoteJson(fs[0].0) + ":" + t + StringifyFields(parent, fs[1..], false)
  }
}
