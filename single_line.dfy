/**
 * The single-line step applied to each rendered record before delivery
 * (firehoseTransformer.mjs, the three `replace` calls that put the JSON on
 * one line for the query engine):
 *
 *   1. remove white space that is followed by the rest of the text split
 *      into `\\`, `\"`, other non-backslash characters and bare quotes, with
 *      an even number of bare quotes — i.e. white space outside string
 *      literals;
 *   2. remove every newline;
 *   3. remove every comma not followed (after optional white space) by one
 *      of `{ [ " ' ^ ( \ )` or a word character.
 *
 * Each regular-expression pass is modelled by the per-character decision it
 * amounts to. For pass 1: the lookahead tokenises the rest of the text from
 * left to right in exactly one way (a backslash must start a two-character
 * token, a quote is a bare quote, anything else is a single token), and a
 * white-space character is itself a single token, so a run of white space is
 * removed whole or kept whole, and a white-space character is removed exactly
 * when the text from it onwards tokenises with an even number of bare quotes.
 */
module SingleLine {
  import opened JsValue

  /** Tokenise `s` as the lookahead of pass 1 does: Some(parity of the
      number of bare quotes), or None when a backslash is followed by
      something other than a backslash or a quote. */
  function QuoteParity(s: string): Option<bool>
  {
    if s == [] then Some(false)
    else if s[0] == '\\' then
      if |s| >= 2 && (s[1] == '\\' || s[1] == '"') then QuoteParity(s[2..]) else None
    else if s[0] == '"' then
      match QuoteParity(s[1..])
      case Some(odd) => Some(!odd)
      case None => None
    else QuoteParity(s[1..])
  }

  /** The lookahead of pass 1 succeeds at the start of `s`. */
  predicate OutsideQuotes(s: string)
  {
    QuoteParity(s) == Some(false)
  }

  /** Pass 1: `replace(/\s+(?=((\\[\\"]|[^\\"])*"(\\[\\"]|[^\\"])*")*(\\[\\"]|[^\\"])*$)/g, '')`. */
  function StripWhitespace(s: string): (r: string)
    ensures |r| <= |s|
  {
    if s == [] then []
    else (if IsSpace(s[0]) && OutsideQuotes(s) then [] else [s[0]]) + StripWhitespace(s[1..])
  }

  /** Pass 2: `replace(/\n/g, "")`. */
  function DropNewlines(s: string): (r: string)
    ensures |r| <= |s|
    ensures '\n' !in r
  {
    if s == [] then []
    else (if s[0] == '\n' then [] else [s[0]]) + DropNewlines(s[1..])
  }

  /** The characters of the class `[\{\[\"\'\w^(\\\")]`. */
  predicate IsCommaFollower(c: char)
  {
    c == '{' || c == '[' || c == '"' || c == '\'' || c == '^' || c == '(' || c == '\\' || c == ')'
    || ('a' <= c <= 'z') || ('A' <= c <= 'Z') || IsDigit(c) || c == '_'
  }

  /** The lookahead `\s*?[…]` matches at the start of `t`. */
  predicate FollowerAhead(t: string)
  {
    t != [] && (IsCommaFollower(t[0]) || (IsSpace(t[0]) && FollowerAhead(t[1..])))
  }

  /** Pass 3: `replace(/\,(?!\s*?[\{\[\"\'\w^(\\\")])/g, '')`. */
  function DropTrailingCommas(s: string): (r: string)
    ensures |r| <= |s|
  {
    if s == [] then []
    else (if s[0] == ',' && !FollowerAhead(s[1..]) then [] else [s[0]]) + DropTrailingCommas(s[1..])
  }

  /** The whole single-line step. */
  function ToSingleLine(s: string): string
  {
    DropTrailingCommas(DropNewlines(StripWhitespace(s)))
  }

  /** The characters that none of the three passes may remove. */
  predicate Kept(c: char)
  {
    !IsSpace(c) && c != ','
  }

  /** `s` with only the characters the passes never remove. */
  function Skeleton(s: string): string
  {
    if s == [] then [] else (if Kept(s[0]) then [s[0]] else []) + Skeleton(s[1..])
  }

  lemma {:induction false} StripWhitespaceSkeleton(s: string)
    ensures Skeleton(StripWhitespace(s)) == Skeleton(s)
    decreases |s|
  {
    if s != [] {
      StripWhitespaceSkeleton(s[1..]);
      var h := if IsSpace(s[0]) && OutsideQuotes(s) then [] else [s[0]];
      SkeletonConcat(h, StripWhitespace(s[1..]));
    }
  }

  lemma {:induction false} DropNewlinesSkeleton(s: string)
    ensures Skeleton(DropNewlines(s)) == Skeleton(s)
    decreases |s|
  {
    if s != [] {
      DropNewlinesSkeleton(s[1..]);
      var h := if s[0] == '\n' then [] else [s[0]];
      SkeletonConcat(h, DropNewlines(s[1..]));
    }
  }

  lemma {:induction false} DropTrailingCommasSkeleton(s: string)
    ensures Skeleton(DropTrailingCommas(s)) == Skeleton(s)
    decreases |s|
  {
    if s != [] {
      DropTrailingCommasSkeleton(s[1..]);
      var h := if s[0] == ',' && !FollowerAhead(s[1..]) then [] else [s[0]];
      SkeletonConcat(h, DropTrailingCommas(s[1..]));
    }
  }

  lemma {:induction false} SkeletonConcat(a: string, b: string)
    ensures Skeleton(a + b) == Skeleton(a) + Skeleton(b)
    decreases |a|
  {
    if a == [] {
      assert a + b == b;
    } else {
      var h := if Kept(a[0]) then [a[0]] else [];
      assert (a + b)[0] == a[0];
      assert (a + b)[1..] == a[1..] + b;
      SkeletonConcat(a[1..], b);
      calc {
        Skeleton(a + b);
        h + Skeleton(a[1..] + b);
        h + (Skeleton(a[1..]) + Skeleton(b));
        (h + Skeleton(a[1..])) + Skeleton(b);
      }
    }
  }

  /** The single-line step never lengthens a record and removes only white
      space and commas: every other character survives, in order. */
  lemma SingleLineRemovesOnlySpaceAndCommas(s: string)
    ensures |ToSingleLine(s)| <= |s|
    ensures Skeleton(ToSingleLine(s)) == Skeleton(s)
  {
    StripWhitespaceSkeleton(s);
    DropNewlinesSkeleton(StripWhitespace(s));
    DropTrailingCommasSkeleton(DropNewlines(StripWhitespace(s)));
  }

  /** Pass 1 removes only white space, which is neither a quote nor a
      backslash, so text whose quotes and escapes tokenise keeps its quote
      parity. */
  lemma {:induction false} StripWhitespaceParity(s: string)
    requires QuoteParity(s).Some?
    ensures QuoteParity(StripWhitespace(s)) == QuoteParity(s)
    decreases |s|
  {
    if s != [] {
      var r := StripWhitespace(s);
      if s[0] == '\\' {
        var rest := StripWhitespace(s[2..]);
        StripWhitespaceParity(s[2..]);
        EscapeKept(s);
        assert r[0] == '\\' && r[1] == s[1] && r[2..] == rest;
      } else {
        StripWhitespaceParity(s[1..]);
        var rest := StripWhitespace(s[1..]);
        if IsSpace(s[0]) && OutsideQuotes(s) {
          assert r == rest;
        } else {
          assert r == [s[0]] + rest;
          assert r[0] == s[0] && r[1..] == rest;
        }
      }
    }
  }

  /** An escape of the lookahead's tokens survives pass 1 whole. */
  lemma EscapeKept(s: string)
    requires |s| >= 2 && s[0] == '\\' && (s[1] == '\\' || s[1] == '"')
    ensures StripWhitespace(s) == [s[0], s[1]] + StripWhitespace(s[2..])
  {
    var t := s[1..];
    assert t[0] == s[1] && t[1..] == s[2..];
    assert !IsSpace(s[0]) && !IsSpace(t[0]);
    assert StripWhitespace(t) == [t[0]] + StripWhitespace(t[1..]);
    assert StripWhitespace(s) == [s[0]] + StripWhitespace(t);
  }

  /** No white-space character of `r` has the lookahead of pass 1
      succeeding at it: pass 1 would remove nothing more. */
  predicate NoStrayWhitespace(r: string)
  {
    forall i :: 0 <= i < |r| && IsSpace(r[i]) ==> !OutsideQuotes(r[i..])
  }

  lemma ConsNoStray(c: char, t: string)
    requires NoStrayWhitespace(t)
    requires IsSpace(c) ==> !OutsideQuotes([c] + t)
    ensures NoStrayWhitespace([c] + t)
  {
    forall i | 0 < i < |[c] + t|
      ensures ([c] + t)[i..] == t[i - 1..]
    {
    }
  }

  /** Pass 1 removes all the white space it is meant to: when the record's
      quotes and escapes tokenise, every white-space character left in the
      result sits inside a string literal, so a second pass would change
      nothing. */
  lemma {:induction false} StripWhitespaceComplete(s: string)
    requires QuoteParity(s).Some?
    ensures NoStrayWhitespace(StripWhitespace(s))
    decreases |s|
  {
    if s != [] {
      if s[0] == '\\' {
        StripWhitespaceComplete(s[2..]);
        EscapeStep(s);
      } else {
        StripWhitespaceComplete(s[1..]);
        CharStep(s);
      }
    }
  }

  lemma EscapeStep(s: string)
    requires |s| >= 2 && s[0] == '\\' && (s[1] == '\\' || s[1] == '"')
    requires NoStrayWhitespace(StripWhitespace(s[2..]))
    ensures NoStrayWhitespace(StripWhitespace(s))
  {
    EscapeKept(s);
    EscapeNoStray(s[0], s[1], StripWhitespace(s[2..]));
  }

  lemma EscapeNoStray(b: char, c: char, t: string)
    requires !IsSpace(b) && !IsSpace(c) && NoStrayWhitespace(t)
    ensures NoStrayWhitespace([b, c] + t)
  {
    ConsNoStray(c, t);
    ConsNoStray(b, [c] + t);
    assert [b, c] + t == [b] + ([c] + t);
  }

  lemma CharStep(s: string)
    requires s != [] && s[0] != '\\' && QuoteParity(s).Some?
    requires NoStrayWhitespace(StripWhitespace(s[1..]))
    ensures NoStrayWhitespace(StripWhitespace(s))
  {
    var rest := StripWhitespace(s[1..]);
    if IsSpace(s[0]) && OutsideQuotes(s) {
      assert StripWhitespace(s) == rest;
    } else {
      assert StripWhitespace(s) == [s[0]] + rest;
      if IsSpace(s[0]) {
        KeptSpaceInside(s);
      }
      ConsNoStray(s[0], rest);
    }
  }

  lemma KeptSpaceInside(s: string)
    requires s != [] && IsSpace(s[0]) && QuoteParity(s).Some? && !OutsideQuotes(s)
    ensures !OutsideQuotes([s[0]] + StripWhitespace(s[1..]))
  {
    var rest := StripWhitespace(s[1..]);
    StripWhitespaceParity(s[1..]);
    assert ([s[0]] + rest)[0] == s[0] && ([s[0]] + rest)[1..] == rest;
  }

  /** Pass 3 keeps a comma whose lookahead succeeds on what follows it,
      since only commas are dropped and the lookahead skips nothing but
      white space before its follower. */
  lemma {:induction false} FollowerAheadKept(t: string)
    requires FollowerAhead(t)
    ensures FollowerAhead(DropTrailingCommas(t))
    decreases |t|
  {
    var r := DropTrailingCommas(t);
    assert r == [t[0]] + DropTrailingCommas(t[1..]);
    if !IsCommaFollower(t[0]) {
      FollowerAheadKept(t[1..]);
      assert r[1..] == DropTrailingCommas(t[1..]);
    }
  }

  /** Every comma of `r` is followed, after optional white space, by a
      character of the class of pass 3. */
  predicate CommasFollowed(r: string)
  {
    forall i :: 0 <= i < |r| && r[i] == ',' ==> FollowerAhead(r[i + 1..])
  }

  lemma ConsCommasFollowed(c: char, t: string)
    requires CommasFollowed(t)
    requires c == ',' ==> FollowerAhead(t)
    ensures CommasFollowed([c] + t)
  {
    var r := [c] + t;
    assert r[1..] == t;
    forall i | 0 < i < |r| && r[i] == ','
      ensures FollowerAhead(r[i + 1..])
    {
      assert r[i] == t[i - 1] && r[i + 1..] == t[i - 1 + 1..];
    }
  }

  /** Pass 3 removes all the commas it is meant to: every comma left is
      followed, after optional white space, by a character of the class. */
  lemma {:induction false} NoTrailingComma(s: string)
    ensures CommasFollowed(DropTrailingCommas(s))
    decreases |s|
  {
    if s != [] {
      NoTrailingComma(s[1..]);
      if s[0] == ',' && !FollowerAhead(s[1..]) {
        assert DropTrailingCommas(s) == DropTrailingCommas(s[1..]);
      } else {
        assert DropTrailingCommas(s) == [s[0]] + DropTrailingCommas(s[1..]);
        if s[0] == ',' {
          FollowerAheadKept(s[1..]);
        }
        ConsCommasFollowed(s[0], DropTrailingCommas(s[1..]));
      }
    }
  }

  /** Pass 3 keeps every character but a comma. */
  lemma NonCommaKept(c: char, t: string)
    requires c != ','
    ensures DropTrailingCommas([c] + t) == [c] + DropTrailingCommas(t)
  {
    assert ([c] + t)[1..] == t;
  }

  /** A comma directly followed by a character that is neither white space,
      a comma nor in the class is removed, and that character kept. */
  lemma CommaBeforeOtherDropped(c: char, t: string)
    requires !IsSpace(c) && !IsCommaFollower(c) && c != ','
    ensures DropTrailingCommas([','] + ([c] + t)) == [c] + DropTrailingCommas(t)
  {
    assert ([','] + ([c] + t))[1..] == [c] + t;
    NonCommaKept(c, t);
  }

  /** Pass 3 looks only at what follows a comma, not at whether the comma is
      inside a string literal: a comma inside a string value is removed too
      when no class character follows it. */
  lemma CommaInsideStringDropped()
    ensures DropTrailingCommas("\"5,-\"") == "\"5-\""
  {
    var quote := "\"";
    NonCommaKept('"', []);
    CommaBeforeOtherDropped('-', quote);
    NonCommaKept('5', [','] + (['-'] + quote));
    NonCommaKept('"', ['5', ',', '-', '"']);
  }

  /** A plain run of characters: no quote and no backslash. */
  predicate Plain(s: string)
  {
    forall i :: 0 <= i < |s| ==> s[i] != '"' && s[i] != '\\'
  }

  lemma {:induction false} PlainParity(body: string, rest: string)
    requires Plain(body)
    ensures QuoteParity(body + rest) == QuoteParity(rest)
    decreases |body|
  {
    if body == [] {
      assert body + rest == rest;
    } else {
      assert (body + rest)[0] == body[0];
      assert (body + rest)[1..] == body[1..] + rest;
      PlainParity(body[1..], rest);
    }
  }

  lemma {:induction false} PlainKept(body: string, rest: string)
    requires Plain(body)
    requires QuoteParity(rest) == Some(true)
    ensures StripWhitespace(body + rest) == body + StripWhitespace(rest)
    decreases |body|
  {
    if body == [] {
      assert body + rest == rest;
    } else {
      var s, t := body + rest, StripWhitespace(rest);
      PlainParity(body, rest);
      assert s[0] == body[0] && s[1..] == body[1..] + rest;
      StripHead(s);
      PlainKept(body[1..], rest);
      assert StripWhitespace(s) == [body[0]] + (body[1..] + t);
      assert [body[0]] + (body[1..] + t) == body + t;
    }
  }

  /** A character that is not white space outside the string literals
      survives pass 1. */
  lemma StripHead(s: string)
    requires s != [] && (!IsSpace(s[0]) || !OutsideQuotes(s))
    ensures StripWhitespace(s) == [s[0]] + StripWhitespace(s[1..])
  {
  }

  /** White space inside a string literal is kept: when a quoted literal
      with no escapes is followed by text that itself splits into tokens with
      an even number of bare quotes (the rest of a well-formed record), pass 1
      leaves the literal exactly as it was. */
  lemma StringLiteralUntouched(body: string, rest: string)
    requires Plain(body)
    requires OutsideQuotes(rest)
    ensures StripWhitespace("\"" + body + "\"" + rest) == "\"" + body + "\"" + StripWhitespace(rest)
  {
    var closing := "\"" + rest;
    assert closing[1..] == rest;
    assert QuoteParity(closing) == Some(true);
    PlainKept(body, closing);
    StripHead(closing);
    var s := "\"" + body + "\"" + rest;
    assert s == "\"" + (body + closing);
    assert s[1..] == body + closing;
    StripHead(s);
  }
}
