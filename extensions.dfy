/**
 * The custom method handlers that the templates may call
 * (utils/customMethodHandlers.mjs): a fixed table of named handlers, each
 * matched by its uid, and the pure string and dictionary functions they
 * resolve to.
 */
module Extensions {
  import opened JsValue

  /* ---------------- the registry ---------------- */

  /** The handlers' uids, in table order. */
  const HandlerUids: seq<string> := [
    "toEscapedJson", "toJson", "retrieveItemFromRaw", "convertTime",
    "formatPhoneNumber", "fetchAccountId", "determineChannel", "formatSESTags"
  ]

  /** A handler's `match`: the template's property name is its uid. */
  predicate Matches(handler: nat, property: string)
    requires handler < |HandlerUids|
  {
    property == HandlerUids[handler]
  }

  /** The first handler in table order whose `match` accepts `property`. */
  function FindHandler(property: string): Option<nat>
  {
    FindFrom(property, 0)
  }

  function FindFrom(property: string, from: nat): (r: Option<nat>)
    requires from <= |HandlerUids|
    ensures r.Some? ==> from <= r.value < |HandlerUids| && Matches(r.value, property)
    ensures r.None? ==> forall h :: from <= h < |HandlerUids| ==> !Matches(h, property)
    decreases |HandlerUids| - from
  {
    if from == |HandlerUids| then None
    else if Matches(from, property) then Some(from)
    else FindFrom(property, from + 1)
  }

  /** No two handlers share a uid. */
  lemma UidsDistinct()
    ensures forall i, j :: 0 <= i < j < |HandlerUids| ==> HandlerUids[i] != HandlerUids[j]
  {
  }

  /** Lookup by name is unambiguous: the handler found for a property is
      exactly the one whose uid it is, and every uid finds its handler. */
  lemma {:induction false} FindHandlerExact(property: string, h: nat)
    requires h < |HandlerUids|
    ensures FindHandler(property) == Some(h) <==> HandlerUids[h] == property
  {
    UidsDistinct();
    var r := FindHandler(property);
    if HandlerUids[h] == property {
      assert r.Some?;
    }
  }

  /* ---------------- toEscapedJson ---------------- */

  /** `s.replace(/[c]/g, rep)`. */
  function ReplaceAll(s: string, c: char, rep: string): string
  {
    if s == [] then [] else (if s[0] == c then rep else [s[0]]) + ReplaceAll(s[1..], c, rep)
  }

  /** The chain of replacements toEscapedJson applies to the serialized
      value, in the order the handler applies them. */
  function EscapeChain(s: string): string
  {
    var s1 := ReplaceAll(s, '\\', "\\\\");
    var s2 := ReplaceAll(s1, '"', "\\\"");
    var s3 := ReplaceAll(s2, '/', "\\/");
    var s4 := ReplaceAll(s3, '\U{0008}', "\\b");
    var s5 := ReplaceAll(s4, '\U{000C}', "\\f");
    var s6 := ReplaceAll(s5, '\n', "\\n");
    var s7 := ReplaceAll(s6, '\r', "\\r");
    ReplaceAll(s7, '\t', "\\t")
  }

  /** The two-character escape of one character, as in section 7 of
      RFC 8259, or the character itself. */
  function EscapeChar(c: char): string
  {
    match c
    case '\\' => "\\\\"
    case '"' => "\\\""
    case '/' => "\\/"
    case '\U{0008}' => "\\b"
    case '\U{000C}' => "\\f"
    case '\n' => "\\n"
    case '\r' => "\\r"
    case '\t' => "\\t"
    case _ => [c]
  }

  /** Reference definition: every character escaped on its own. */
  function EscapeEach(s: string): string
  {
    if s == [] then [] else EscapeChar(s[0]) + EscapeEach(s[1..])
  }

  /** The character a two-character escape `\c` stands for. */
  function UnescapeChar(c: char): char
  {
    match c
    case 'b' => '\U{0008}'
    case 'f' => '\U{000C}'
    case 'n' => '\n'
    case 'r' => '\r'
    case 't' => '\t'
    case _ => c
  }

  /** Reading the escaped text back as the body of a JSON string literal. */
  function Unescape(t: string): string
  {
    if t == [] then []
    else if t[0] == '\\' && |t| >= 2 then [UnescapeChar(t[1])] + Unescape(t[2..])
    else [t[0]] + Unescape(t[1..])
  }

  /** The toEscapedJson handler: `JSON.stringify(params[0])` followed by the
      replacement chain; `undefined` serializes to undefined, whose
      `.replace` throws. */
  function ToEscapedJson(v: Value): (r: Completion<string>)
    ensures r.Throw? <==> v.Undefined?
    ensures r.Normal? ==> Unescape(r.value) == Stringify(v).value
    ensures r.Normal? ==> forall k :: 0 <= k < |r.value| ==> !IsEscapedControl(r.value[k])
    ensures r.Normal? ==> forall k :: 0 <= k < |r.value| && (r.value[k] == '"' || r.value[k] == '/') ==>
                            k > 0 && r.value[k - 1] == '\\'
  {
    match Stringify(v)
    case None => Throw
    case Some(s) =>
      EscapeChainIsCharwise(s);
      EscapeRoundTrip(s);
      EscapedIsInlineSafe(s);
      Normal(EscapeChain(s))
  }

  /** The toJson handler: `JSON.stringify(params[0])`, undefined for
      undefined. It is the text that the output of toEscapedJson reads back
      to, and it exists exactly when toEscapedJson does not throw. */
  function ToJson(v: Value): (r: Option<string>)
    ensures r.None? <==> v.Undefined?
    ensures r.None? <==> ToEscapedJson(v).Throw?
    ensures r.Some? ==> Unescape(ToEscapedJson(v).value) == r.value
  {
    Stringify(v)
  }

  predicate IsEscapedControl(c: char)
  {
    c == '\U{0008}' || c == '\U{000C}' || c == '\n' || c == '\r' || c == '\t'
  }

  lemma {:induction false} ReplaceAllConcat(a: string, b: string, c: char, rep: string)
    ensures ReplaceAll(a + b, c, rep) == ReplaceAll(a, c, rep) + ReplaceAll(b, c, rep)
    decreases |a|
  {
    if a == [] {
      assert a + b == b;
    } else {
      var h := if a[0] == c then rep else [a[0]];
      assert (a + b)[0] == a[0];
      assert (a + b)[1..] == a[1..] + b;
      ReplaceAllConcat(a[1..], b, c, rep);
      calc {
        ReplaceAll(a + b, c, rep);
        h + ReplaceAll(a[1..] + b, c, rep);
        h + (ReplaceAll(a[1..], c, rep) + ReplaceAll(b, c, rep));
        (h + ReplaceAll(a[1..], c, rep)) + ReplaceAll(b, c, rep);
      }
    }
  }

  lemma EscapeChainConcat(a: string, b: string)
    ensures EscapeChain(a + b) == EscapeChain(a) + EscapeChain(b)
  {
    var a1, b1 := ReplaceAll(a, '\\', "\\\\"), ReplaceAll(b, '\\', "\\\\");
    ReplaceAllConcat(a, b, '\\', "\\\\");
    var a2, b2 := ReplaceAll(a1, '"', "\\\""), ReplaceAll(b1, '"', "\\\"");
    ReplaceAllConcat(a1, b1, '"', "\\\"");
    var a3, b3 := ReplaceAll(a2, '/', "\\/"), ReplaceAll(b2, '/', "\\/");
    ReplaceAllConcat(a2, b2, '/', "\\/");
    var a4, b4 := ReplaceAll(a3, '\U{0008}', "\\b"), ReplaceAll(b3, '\U{0008}', "\\b");
    ReplaceAllConcat(a3, b3, '\U{0008}', "\\b");
    var a5, b5 := ReplaceAll(a4, '\U{000C}', "\\f"), ReplaceAll(b4, '\U{000C}', "\\f");
    ReplaceAllConcat(a4, b4, '\U{000C}', "\\f");
    var a6, b6 := ReplaceAll(a5, '\n', "\\n"), ReplaceAll(b5, '\n', "\\n");
    ReplaceAllConcat(a5, b5, '\n', "\\n");
    var a7, b7 := ReplaceAll(a6, '\r', "\\r"), ReplaceAll(b6, '\r', "\\r");
    ReplaceAllConcat(a6, b6, '\r', "\\r");
    ReplaceAllConcat(a7, b7, '\t', "\\t");
  }

  /** Each replacement is applied once to the text as it then stands, yet
      no replacement produces a character a later one rewrites, so the
      chain escapes every character independently. */
  lemma {:induction false} EscapeChainIsCharwise(s: string)
    ensures EscapeChain(s) == EscapeEach(s)
    decreases |s|
  {
    if s != [] {
      assert s == [s[0]] + s[1..];
      EscapeChainConcat([s[0]], s[1..]);
      EscapeChainIsCharwise(s[1..]);
      EscapeChainOneChar(s[0]);
    }
  }

  lemma EscapeChainOneChar(c: char)
    ensures EscapeChain([c]) == EscapeChar(c)
  {
    forall s: string, t: char, rep: string | |s| <= 2
      ensures ReplaceAll(s, t, rep) == ReplaceAllSmall(s, t, rep)
    {
      ReplaceAllOfSmall(s, t, rep);
    }
    if c == '\\' {
    } else if c == '"' {
    } else if c == '/' {
    } else if c == '\U{0008}' {
    } else if c == '\U{000C}' {
    } else if c == '\n' {
    } else if c == '\r' {
    } else if c == '\t' {
    } else {
      assert EscapeChar(c) == [c];
    }
  }

  lemma ReplaceAllOfSmall(s: string, t: char, rep: string)
    requires |s| <= 2
    ensures ReplaceAll(s, t, rep) == ReplaceAllSmall(s, t, rep)
  {
    if |s| >= 1 {
      assert ReplaceAll(s[1..], t, rep) == if |s| == 2 then (if s[1] == t then rep else [s[1]]) else [] by {
        if |s| == 2 {
          assert s[1..][0] == s[1];
          assert s[1..][1..] == [];
        }
      }
    }
  }

  /** ReplaceAll written out for strings of at most two characters. */
  function ReplaceAllSmall(s: string, t: char, rep: string): string
    requires |s| <= 2
  {
    if s == [] then []
    else (if s[0] == t then rep else [s[0]]) + (if |s| == 2 then (if s[1] == t then rep else [s[1]]) else [])
  }

  /** Unescaping recovers the serialized text. */
  lemma {:induction false} EscapeRoundTrip(s: string)
    ensures Unescape(EscapeEach(s)) == s
    decreases |s|
  {
    if s != [] {
      EscapeRoundTrip(s[1..]);
      UnescapeHead(s[0], EscapeEach(s[1..]));
      assert s == [s[0]] + s[1..];
    }
  }

  /** An escaped character reads back as itself, whatever follows it. */
  lemma UnescapeHead(c: char, rest: string)
    ensures Unescape(EscapeChar(c) + rest) == [c] + Unescape(rest)
  {
    var t := EscapeChar(c) + rest;
    if |EscapeChar(c)| == 2 {
      assert t[2..] == rest;
    } else {
      assert t[1..] == rest;
    }
  }

  /** The escaped text holds none of the escaped control characters raw,
      and every double quote or slash in it is preceded by a backslash. */
  lemma {:induction false} EscapedIsInlineSafe(s: string)
    ensures forall k :: 0 <= k < |EscapeEach(s)| ==> !IsEscapedControl(EscapeEach(s)[k])
    ensures forall k :: 0 <= k < |EscapeEach(s)| && (EscapeEach(s)[k] == '"' || EscapeEach(s)[k] == '/') ==>
              k > 0 && EscapeEach(s)[k - 1] == '\\'
    decreases |s|
  {
    if s != [] {
      EscapedIsInlineSafe(s[1..]);
      var head, tail := EscapeChar(s[0]), EscapeEach(s[1..]);
      assert EscapeEach(s) == head + tail;
      forall k | 0 <= k < |head + tail|
        ensures !IsEscapedControl((head + tail)[k])
        ensures ((head + tail)[k] == '"' || (head + tail)[k] == '/') ==> k > 0 && (head + tail)[k - 1] == '\\'
      {
        if k >= |head| {
          assert (head + tail)[k] == tail[k - |head|];
          if k > |head| {
            assert (head + tail)[k - 1] == tail[k - 1 - |head|];
          }
        }
      }
    }
  }

  /* ---------------- retrieveItemFromRaw ---------------- */

  /** `k in v`: own properties of objects, the indices and `length` of
      arrays; the `in` operator throws a TypeError on anything that is not
      an object. */
  function HasProperty(v: Value, k: string): Completion<bool>
  {
    match v
    case Obj(fs) => Normal(k in KeysOf(fs))
    case Arr(xs) =>
      Normal(k == "length" || (CanonicalIndex(k).Some? && CanonicalIndex(k).value < |xs|))
    case _ => Throw
  }

  /** The retrieveItemFromRaw handler: `JSON.parse(params[0])` (the `parse`
      oracle, None when the text is not JSON), then `parsed[params[1]]` if the
      property is there and '' otherwise; a parse error is rethrown. */
  function RetrieveItemFromRaw(raw: Value, name: Value, parse: string -> Option<Value>): (r: Completion<Value>)
    ensures parse(CoerceToString(raw)).None? ==> r.Throw?
    ensures parse(CoerceToString(raw)).Some? && parse(CoerceToString(raw)).value.Obj? ==>
              var fs := parse(CoerceToString(raw)).value.fields;
              r == Normal(if CoerceToString(name) in KeysOf(fs) then Lookup(fs, CoerceToString(name)) else Str(""))
    ensures parse(CoerceToString(raw)).Some? && !Truthy(parse(CoerceToString(raw)).value) ==> r == Normal(Str(""))
    // `in` on a truthy string, number or boolean throws, and the handler rethrows
    ensures var parsed := parse(CoerceToString(raw));
            parsed.Some? && Truthy(parsed.value) && !parsed.value.Obj? && !parsed.value.Arr? ==> r.Throw?
    ensures var parsed := parse(CoerceToString(raw));
            parsed.Some? && parsed.value.Arr? ==>
              var items := parsed.value.items;
              var i := CanonicalIndex(CoerceToString(name));
              r == Normal(if CoerceToString(name) == "length" then Num(|items|)
                          else if i.Some? && i.value < |items| then items[i.value] else Str(""))
  {
    match parse(CoerceToString(raw))
    case None => Throw
    case Some(parsed) =>
      var key := CoerceToString(name);
      if !Truthy(parsed) then Normal(Str(""))
      else match HasProperty(parsed, key)
        case Throw => Throw
        case Normal(present) => if present then Get(parsed, key) else Normal(Str(""))
  }

  /* ---------------- formatPhoneNumber ---------------- */

  /** The decimal digits of `s`, in order: `s.replace(/[^0-9]/g, '')`. */
  function Digits(s: string): (r: string)
    ensures |r| <= |s|
    ensures forall i :: 0 <= i < |r| ==> IsDigit(r[i])
  {
    if s == [] then [] else (if IsDigit(s[0]) then [s[0]] else []) + Digits(s[1..])
  }

  lemma {:induction false} DigitsConcat(a: string, b: string)
    ensures Digits(a + b) == Digits(a) + Digits(b)
    decreases |a|
  {
    if a == [] {
      assert a + b == b;
    } else {
      var h := if IsDigit(a[0]) then [a[0]] else [];
      assert (a + b)[0] == a[0];
      assert (a + b)[1..] == a[1..] + b;
      DigitsConcat(a[1..], b);
      calc {
        Digits(a + b);
        h + Digits(a[1..] + b);
        h + (Digits(a[1..]) + Digits(b));
        (h + Digits(a[1..])) + Digits(b);
      }
    }
  }

  lemma {:induction false} DigitsOfDigits(s: string)
    requires forall i :: 0 <= i < |s| ==> IsDigit(s[i])
    ensures Digits(s) == s
    decreases |s|
  {
    if s != [] {
      DigitsOfDigits(s[1..]);
    }
  }

  /** The formatPhoneNumber handler; `.replace` on a non-string throws. */
  function FormatPhoneNumber(v: Value): (r: Completion<string>)
    ensures r.Throw? <==> !v.Str?
    ensures r.Normal? ==> |r.value| >= 1 && r.value[0] == '+' && r.value[1..] == Digits(v.s)
  {
    match v
    case Str(s) => Normal("+" + Digits(s))
    case _ => Throw
  }

  /** The number keeps exactly the digits of the input, and formatting an
      already formatted number changes nothing. */
  lemma FormatPhoneNumberIdempotent(s: string)
    ensures FormatPhoneNumber(Str(FormatPhoneNumber(Str(s)).value)) == FormatPhoneNumber(Str(s))
  {
    var ds := Digits(s);
    DigitsConcat("+", ds);
    DigitsOfDigits(ds);
    assert Digits("+") == [] by {
      assert !IsDigit('+');
      assert "+"[1..] == [];
    }
    assert FormatPhoneNumber(Str(s)).value == "+" + ds;
    assert Digits("+" + ds) == ds;
  }

  /* ---------------- determineChannel ---------------- */

  /** `toLowerCase` on one character (ASCII letters). */
  function LowerChar(c: char): char
  {
    if 'A' <= c <= 'Z' then (c as int + 32) as char else c
  }

  function Lower(s: string): (r: string)
    ensures |r| == |s|
    ensures forall i :: 0 <= i < |s| ==> r[i] == LowerChar(s[i])
  {
    if s == [] then [] else [LowerChar(s[0])] + Lower(s[1..])
  }

  /** `s.split('_')[0]`: everything before the first underscore. */
  function BeforeUnderscore(s: string): string
  {
    if s == [] || s[0] == '_' then [] else [s[0]] + BeforeUnderscore(s[1..])
  }

  /** The determineChannel handler: the lower-cased text before the first
      underscore, or 'unknown' when `params[0]` is not a string (its
      `split` throws and the handler catches). */
  function DetermineChannel(v: Value): (r: string)
    ensures !v.Str? ==> r == "unknown"
    ensures v.Str? ==> |r| <= |v.s| && (forall i :: 0 <= i < |r| ==> v.s[i] != '_' && r[i] == LowerChar(v.s[i]))
                       && (|r| < |v.s| ==> v.s[|r|] == '_')
    ensures forall i :: 0 <= i < |r| ==> r[i] != '_'
  {
    match v
    case Str(s) => BeforeUnderscoreIsPrefix(s); Lower(BeforeUnderscore(s))
    case _ => "unknown"
  }

  lemma {:induction false} BeforeUnderscoreIsPrefix(s: string)
    ensures var p := BeforeUnderscore(s);
            |p| <= |s| && (forall i :: 0 <= i < |p| ==> s[i] != '_' && p[i] == s[i]) && (|p| < |s| ==> s[|p|] == '_')
    decreases |s|
  {
    if s != [] && s[0] != '_' {
      BeforeUnderscoreIsPrefix(s[1..]);
    }
  }

  /** Determining the channel of a channel name gives the name back. */
  lemma DetermineChannelIdempotent(v: Value)
    ensures DetermineChannel(Str(DetermineChannel(v))) == DetermineChannel(v)
  {
    var r := DetermineChannel(v);
    BeforeUnderscoreNone(r);
    if v.Str? {
      forall i | 0 <= i < |r|
        ensures LowerChar(r[i]) == r[i]
      {
        LowerCharIdempotent(v.s[i]);
      }
    } else {
      assert r == "unknown";
      assert forall i :: 0 <= i < |r| ==> 'a' <= r[i] <= 'z';
    }
    LowerFixed(r);
  }

  lemma LowerCharIdempotent(c: char)
    ensures LowerChar(LowerChar(c)) == LowerChar(c)
  {
  }

  lemma {:induction false} BeforeUnderscoreNone(s: string)
    requires forall i :: 0 <= i < |s| ==> s[i] != '_'
    ensures BeforeUnderscore(s) == s
    decreases |s|
  {
    if s != [] {
      BeforeUnderscoreNone(s[1..]);
    }
  }

  lemma {:induction false} LowerFixed(s: string)
    requires forall i :: 0 <= i < |s| ==> LowerChar(s[i]) == s[i]
    ensures Lower(s) == s
    decreases |s|
  {
    if s != [] {
      LowerFixed(s[1..]);
    }
  }

  /* ---------------- formatSESTags ---------------- */

  /** The names a `for…in` loop visits: an object's own property names, the
      indices of an array or a string; nothing for other values. */
  function ForInKeys(v: Value): seq<string>
  {
    match v
    case Obj(fs) => KeysOf(fs)
    case Arr(xs) => seq(|xs|, i requires 0 <= i < |xs| => NatToDecimal(i))
    case Str(s) => seq(|s|, i requires 0 <= i < |s| => NatToDecimal(i))
    case _ => []
  }

  /** `newTags` after the loop has visited `keys` in order:
      `newTags[tag] = params[0][tag][0]`, which throws when the value is
      null or undefined. */
  function FlattenTags(tags: Value, keys: seq<string>): (r: Completion<seq<(string, Value)>>)
    ensures r.Normal? ==> DistinctKeys(r.value)
  {
    if keys == [] then Normal([])
    else match FlattenTags(tags, keys[..|keys| - 1])
      case Throw => Throw
      case Normal(acc) =>
        var tag := keys[|keys| - 1];
        match Get(tags, tag)
        case Throw => Throw
        case Normal(val) =>
          match Get(val, "0")
          case Throw => Throw
          case Normal(first) =>
            SetFieldKeepsDistinct(acc, tag, first);
            Normal(SetField(acc, tag, first))
  }

  /** The formatSESTags handler as a value: the serialized flat map, or
      'unknown' when the loop threw. */
  function FormatSESTagsSpec(tags: Value): (r: string)
    ensures r == "unknown" || (r != [] && r[0] == '{')
  {
    match FlattenTags(tags, ForInKeys(tags))
    case Throw => "unknown"
    case Normal(newTags) => Stringify(Obj(newTags)).value
  }

  lemma {:induction false} FlattenThrowPersists(tags: Value, keys: seq<string>, i: nat)
    requires i <= |keys|
    requires FlattenTags(tags, keys[..i]).Throw?
    ensures FlattenTags(tags, keys).Throw?
    decreases |keys| - i
  {
    if i < |keys| {
      assert keys[..i + 1][..i] == keys[..i];
      FlattenThrowPersists(tags, keys, i + 1);
    } else {
      assert keys[..i] == keys;
    }
  }

  lemma FlattenStep(tags: Value, keys: seq<string>, i: nat, acc: seq<(string, Value)>)
    requires i < |keys| && Get(tags, keys[i]).Normal?
    requires FlattenTags(tags, keys[..i]) == Normal(acc)
    ensures var first := Get(Get(tags, keys[i]).value, "0");
      FlattenTags(tags, keys[..i + 1]) == if first.Throw? then Throw else Normal(SetField(acc, keys[i], first.value))
  {
    assert keys[..i + 1][..i] == keys[..i];
  }

  /** The `for…in` loop of formatSESTags over the names `keys`:
      `newTags[tag] = params[0][tag][0]` for each, until one throws. */
  method FlattenLoop(tags: Value, keys: seq<string>) returns (r: Completion<seq<(string, Value)>>)
    requires forall i :: 0 <= i < |keys| ==> Get(tags, keys[i]).Normal?
    ensures r == FlattenTags(tags, keys)
  {
    var newTags: seq<(string, Value)> := [];
    for i := 0 to |keys|
      invariant FlattenTags(tags, keys[..i]) == Normal(newTags)
    {
      var tag := keys[i];
      FlattenStep(tags, keys, i, newTags);
      var first := Get(Get(tags, tag).value, "0");
      if first.Throw? {
        FlattenThrowPersists(tags, keys, i + 1);
        return Throw;
      }
      newTags := SetField(newTags, tag, first.value);
    }
    assert keys[..|keys|] == keys;
    r := Normal(newTags);
  }

  /** The formatSESTags handler: a `for…in` loop that builds `newTags`, then
      `JSON.stringify(newTags)`; any exception gives 'unknown'. */
  method FormatSESTags(tags: Value) returns (r: string)
    ensures r == FormatSESTagsSpec(tags)
  {
    var keys := ForInKeys(tags);
    ForInKeysReadable(tags);
    var flat := FlattenLoop(tags, keys);
    if flat.Throw? {
      return "unknown";
    }
    r := Stringify(Obj(flat.value)).value;
  }

  /** Some visited value is null or undefined. */
  predicate SomeNullish(tags: Value, keys: seq<string>)
    requires forall i :: 0 <= i < |keys| ==> Get(tags, keys[i]).Normal?
  {
    exists i :: 0 <= i < |keys| && IsNullish(Get(tags, keys[i]).value)
  }

  lemma SomeNullishSplit(tags: Value, keys: seq<string>)
    requires keys != [] && forall i :: 0 <= i < |keys| ==> Get(tags, keys[i]).Normal?
    ensures SomeNullish(tags, keys)
            <==> SomeNullish(tags, keys[..|keys| - 1]) || IsNullish(Get(tags, keys[|keys| - 1]).value)
  {
    var init := keys[..|keys| - 1];
    if i :| 0 <= i < |keys| && IsNullish(Get(tags, keys[i]).value) {
      if i < |init| {
        assert IsNullish(Get(tags, init[i]).value);
      }
    }
    if i :| 0 <= i < |init| && IsNullish(Get(tags, init[i]).value) {
      assert keys[i] == init[i];
    }
  }

  /** The loop throws exactly when one of the visited values is null or
      undefined: it cannot be indexed. */
  lemma {:induction false} FlattenTagsThrows(tags: Value, keys: seq<string>)
    requires forall i :: 0 <= i < |keys| ==> Get(tags, keys[i]).Normal?
    ensures FlattenTags(tags, keys).Throw? <==> SomeNullish(tags, keys)
  {
    if keys != [] {
      var init := keys[..|keys| - 1];
      assert forall i :: 0 <= i < |init| ==> init[i] == keys[i];
      FlattenTagsThrows(tags, init);
      SomeNullishSplit(tags, keys);
    }
  }

  /** `params[0][tag][0]`, the value the loop stores under `tag` when both
      reads succeed. */
  function FirstElement(tags: Value, tag: string): Value
  {
    match Get(tags, tag)
    case Throw => Undefined
    case Normal(v) =>
      match Get(v, "0")
      case Throw => Undefined
      case Normal(x) => x
  }

  /** One more store keeps "each name seen so far maps to its first element,
      no other name is set". */
  lemma FlattenLookupStep(tags: Value, keys: seq<string>, acc: seq<(string, Value)>)
    requires keys != []
    requires forall i :: 0 <= i < |keys| - 1 ==> Lookup(acc, keys[i]) == FirstElement(tags, keys[i])
    requires forall k :: k !in keys[..|keys| - 1] ==> Lookup(acc, k) == Undefined
    ensures var r := SetField(acc, keys[|keys| - 1], FirstElement(tags, keys[|keys| - 1]));
            (forall i :: 0 <= i < |keys| ==> Lookup(r, keys[i]) == FirstElement(tags, keys[i])) &&
            (forall k :: k !in keys ==> Lookup(r, k) == Undefined)
  {
    var tag := keys[|keys| - 1];
    var r := SetField(acc, tag, FirstElement(tags, tag));
    forall i | 0 <= i < |keys|
      ensures Lookup(r, keys[i]) == FirstElement(tags, keys[i])
    {
      SetFieldLookup(acc, tag, FirstElement(tags, tag), keys[i]);
    }
    forall k | k !in keys
      ensures Lookup(r, k) == Undefined
    {
      SetFieldLookup(acc, tag, FirstElement(tags, tag), k);
      assert k !in keys[..|keys| - 1];
    }
  }

  /** Otherwise each visited name maps to the first element of its value
      (undefined for an empty array), and no other name is set. */
  lemma {:induction false} FlattenTagsLookup(tags: Value, keys: seq<string>)
    requires forall i :: 0 <= i < |keys| ==> Get(tags, keys[i]).Normal?
    requires !SomeNullish(tags, keys)
    ensures FlattenTags(tags, keys).Normal?
    ensures forall i :: 0 <= i < |keys| ==>
              Lookup(FlattenTags(tags, keys).value, keys[i]) == FirstElement(tags, keys[i])
    ensures forall k :: k !in keys ==> Lookup(FlattenTags(tags, keys).value, k) == Undefined
  {
    FlattenTagsThrows(tags, keys);
    if keys != [] {
      var init, tag := keys[..|keys| - 1], keys[|keys| - 1];
      assert forall i :: 0 <= i < |init| ==> init[i] == keys[i];
      SomeNullishSplit(tags, keys);
      FlattenTagsLookup(tags, init);
      var acc := FlattenTags(tags, init).value;
      assert FlattenTags(tags, keys) == Normal(SetField(acc, tag, FirstElement(tags, tag)));
      FlattenLookupStep(tags, keys, acc);
    }
  }

  /** formatSESTags gives 'unknown' exactly when one of the values it
      visits is null or undefined. */
  lemma FormatSESTagsUnknown(tags: Value)
    ensures FormatSESTagsSpec(tags) == "unknown" <==>
              exists i :: 0 <= i < |ForInKeys(tags)| && IsNullish(Get(tags, ForInKeys(tags)[i]).value)
  {
    ForInKeysReadable(tags);
    FlattenTagsThrows(tags, ForInKeys(tags));
    match FlattenTags(tags, ForInKeys(tags))
    case Throw =>
    case Normal(newTags) =>
      assert Stringify(Obj(newTags)).value[0] == '{';
  }

  /** `for…in` visits only names the value has, so reading them does not
      throw. */
  lemma ForInKeysReadable(tags: Value)
    ensures forall i :: 0 <= i < |ForInKeys(tags)| ==> Get(tags, ForInKeys(tags)[i]).Normal?
  {
  }
}
