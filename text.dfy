/**
 * String helpers: the escaping applied before a message is embedded in the
 * single-quoted string literal of an injected script, how the page's
 * JavaScript engine reads such a literal back, and substring search.
 */
module Text {
  import opened Wrappers

  /**
   * `s.replacingOccurrences(of: "'", with: "\\'")`, as the code writes it: a
   * backslash is put in front of every single quote, every other character is
   * kept (backslashes and line breaks included).
   */
  function Escape(s: string): (r: string)
    ensures (forall i :: 0 <= i < |s| ==> s[i] != '\'') ==> r == s
  {
    if s == [] then []
    else
      assert (forall i :: 0 <= i < |s| ==> s[i] != '\'') ==> forall i :: 0 <= i < |s[1..]| ==> s[1..][i] != '\'';
      assert [s[0]] + s[1..] == s;
      (if s[0] == '\'' then "\\'" else [s[0]]) + Escape(s[1..])
  }

  lemma {:induction false} EscapeAppend(a: string, b: string)
    ensures Escape(a + b) == Escape(a) + Escape(b)
  {
    if a == [] {
      assert a + b == b;
    } else {
      assert (a + b)[0] == a[0] && (a + b)[1..] == a[1..] + b;
      EscapeAppend(a[1..], b);
    }
  }

  /** Reads a quote-escaped string back: each `\'` pair becomes `'`, scanning left to right. */
  function Unescape(s: string): string
  {
    if s == [] then []
    else if |s| >= 2 && s[0] == '\\' && s[1] == '\'' then "'" + Unescape(s[2..])
    else [s[0]] + Unescape(s[1..])
  }

  /** `s.contains(part)` */
  predicate Contains(s: string, part: string)
  {
    part <= s || (s != [] && Contains(s[1..], part))
  }

  // How the page reads the literal `window.postMessage('…')` carries

  /** Line terminators that may not stand unescaped in a string literal (section 12.9.4 of ECMA-262). */
  predicate IsLineBreak(c: char)
  {
    c == '\n' || c == '\r'
  }

  predicate IsDigit(c: char)
  {
    '0' <= c <= '9'
  }

  /** A character that stands for itself both in the literal and in the value. */
  predicate IsPlain(c: char)
  {
    c != '\'' && c != '\\' && !IsLineBreak(c)
  }

  /** A message holding no backslash and no line break: the only characters the code's escaping leaves unsafe. */
  predicate ReadsAsWritten(s: string)
  {
    forall i :: 0 <= i < |s| ==> s[i] != '\\' && !IsLineBreak(s[i])
  }

  /**
   * The first backslash of `s` is at `i` and starts one of the single escapes
   * other than `\\` (as JSON text writes `\"`, `\n`, `\t`, …).
   */
  predicate FirstBackslashEscapeAt(s: string, i: int)
  {
    0 <= i < |s| - 1 && s[i] == '\\' && (forall k :: 0 <= k < i ==> s[k] != '\\') &&
    SingleEscape(s[i + 1]).Some? && s[i + 1] != '\\'
  }

  function HexDigitValue(c: char): (v: Option<nat>)
    ensures v.Some? ==> v.value < 16
  {
    if '0' <= c <= '9' then Some(c as int - '0' as int)
    else if 'a' <= c <= 'f' then Some(10 + c as int - 'a' as int)
    else if 'A' <= c <= 'F' then Some(10 + c as int - 'A' as int)
    else None
  }

  /** The four hex digits of a `\uXXXX` escape starting at `s[0]`. */
  function HexQuad(s: string): (v: Option<nat>)
    ensures v.Some? ==> v.value < 0x1_0000
  {
    if |s| < 4 || HexDigitValue(s[0]).None? || HexDigitValue(s[1]).None? ||
       HexDigitValue(s[2]).None? || HexDigitValue(s[3]).None? then None
    else Some(((HexDigitValue(s[0]).value * 16 + HexDigitValue(s[1]).value) * 16 + HexDigitValue(s[2]).value) * 16
              + HexDigitValue(s[3]).value)
  }

  /** SingleEscapeCharacter: the value of `\c` for the nine characters with a fixed meaning. */
  function SingleEscape(c: char): Option<char>
  {
    if c == '\'' || c == '"' || c == '\\' then Some(c)
    else if c == 'b' then Some('\U{8}')
    else if c == 'f' then Some('\U{C}')
    else if c == 'n' then Some('\n')
    else if c == 'r' then Some('\r')
    else if c == 't' then Some('\t')
    else if c == 'v' then Some('\U{B}')
    else None
  }

  /** Only `\\` stands for a backslash among the single escapes. */
  lemma SingleEscapeOfOther(c: char)
    requires SingleEscape(c).Some? && c != '\\'
    ensures SingleEscape(c).value != '\\'
  {
  }

  function Cons(c: char, rest: Option<string>): (r: Option<string>)
    ensures r.Some? <==> rest.Some?
    ensures r.Some? ==> r.value == [c] + rest.value
  {
    if rest.Some? then Some([c] + rest.value) else None
  }

  /**
   * The string value of the body of a single-quoted ECMAScript string
   * literal, or None when the body is no valid literal (an unescaped quote or
   * line break, a dangling backslash, a malformed `\x`/`\u` escape).
   * Recognised: the single escapes, `\0`, `\xHH`, `\uHHHH` (outside the
   * surrogate range), line continuations and `\c` for any other character c.
   */
  function JsStringValue(body: string): (r: Option<string>)
    ensures r.Some? ==> |r.value| <= |body|
    ensures (forall i :: 0 <= i < |body| ==> IsPlain(body[i])) ==> r == Some(body)
    decreases |body|
  {
    if body == [] then Some([])
    else if body[0] == '\'' || IsLineBreak(body[0]) then None
    else if body[0] != '\\' then
      assert (forall i :: 0 <= i < |body| ==> IsPlain(body[i])) ==> forall i :: 0 <= i < |body[1..]| ==> IsPlain(body[1..][i]);
      assert [body[0]] + body[1..] == body;
      Cons(body[0], JsStringValue(body[1..]))
    else if |body| == 1 then None
    else
      var c := body[1];
      if SingleEscape(c).Some? then Cons(SingleEscape(c).value, JsStringValue(body[2..]))
      else if c == '\r' && |body| > 2 && body[2] == '\n' then JsStringValue(body[3..])
      else if IsLineBreak(c) || c == '\U{2028}' || c == '\U{2029}' then JsStringValue(body[2..])
      else if c == '0' && (|body| == 2 || !IsDigit(body[2])) then Cons('\0', JsStringValue(body[2..]))
      else if IsDigit(c) then None
      else if c == 'x' then
        if |body| >= 4 && HexDigitValue(body[2]).Some? && HexDigitValue(body[3]).Some? then
          Cons((HexDigitValue(body[2]).value * 16 + HexDigitValue(body[3]).value) as char, JsStringValue(body[4..]))
        else None
      else if c == 'u' then
        var v := HexQuad(body[2..]);
        if v.None? || 0xD800 <= v.value < 0xE000 then None
        else Cons(v.value as char, JsStringValue(body[6..]))
      else Cons(c, JsStringValue(body[2..]))
  }

  /** The escape for one character so that the literal's value is the character itself. */
  function ScriptEscapeChar(c: char): string
  {
    if c == '\\' then "\\\\"
    else if c == '\'' then "\\'"
    else if c == '\n' then "\\n"
    else if c == '\r' then "\\r"
    else [c]
  }

  /**
   * The escaping the injection needs: backslashes and line breaks are escaped
   * as well as single quotes. This is the corrected form of `Escape`.
   */
  function ScriptEscape(s: string): string
  {
    if s == [] then [] else ScriptEscapeChar(s[0]) + ScriptEscape(s[1..])
  }

  /** An unescaped quote or line break ends the literal: the body is no valid literal. */
  lemma ReadsBareStop(body: string)
    requires body != [] && (body[0] == '\'' || IsLineBreak(body[0]))
    ensures JsStringValue(body).None?
  {
  }

  /** A plain character reads as itself, ahead of the rest. */
  lemma ReadsPlainStep(body: string)
    requires body != [] && IsPlain(body[0])
    ensures JsStringValue(body) == Cons(body[0], JsStringValue(body[1..]))
  {
  }

  /** A single escape reads as its value, ahead of the rest. */
  lemma ReadsSingleEscapeStep(body: string)
    requires |body| >= 2 && body[0] == '\\' && SingleEscape(body[1]).Some?
    ensures JsStringValue(body) == Cons(SingleEscape(body[1]).value, JsStringValue(body[2..]))
  {
  }

  lemma ReadsEscapedChar(c: char, rest: string)
    ensures JsStringValue(ScriptEscapeChar(c) + rest) == Cons(c, JsStringValue(rest))
  {
    var body := ScriptEscapeChar(c) + rest;
    if IsPlain(c) {
      assert body[0] == c && body[1..] == rest;
      ReadsPlainStep(body);
    } else {
      assert body[0] == '\\' && body[2..] == rest;
      ReadsSingleEscapeStep(body);
    }
  }

  /** The page reads every message escaped by `ScriptEscape` back unchanged. */
  lemma {:induction false} ScriptEscapeReadsBack(s: string)
    ensures JsStringValue(ScriptEscape(s)) == Some(s)
  {
    if s != [] {
      ScriptEscapeReadsBack(s[1..]);
      ReadsEscapedChar(s[0], ScriptEscape(s[1..]));
      assert [s[0]] + s[1..] == s;
    }
  }

  /** On a message without backslashes or line breaks the code's escaping and the corrected one agree. */
  lemma {:induction false} EscapeAgreesWithoutBackslash(s: string)
    requires ReadsAsWritten(s)
    ensures Escape(s) == ScriptEscape(s)
    ensures JsStringValue(Escape(s)) == Some(s)
  {
    if s != [] {
      assert ReadsAsWritten(s[1..]) by {
        forall i | 0 <= i < |s[1..]| ensures s[1..][i] != '\\' && !IsLineBreak(s[1..][i]) {
          assert s[1..][i] == s[i + 1];
        }
      }
      EscapeAgreesWithoutBackslash(s[1..]);
    }
    ScriptEscapeReadsBack(s);
  }

  /** One step of the code's escaping. */
  lemma EscapeStep(p: string)
    requires p != []
    ensures Escape(p) == (if p[0] == '\'' then "\\'" else [p[0]]) + Escape(p[1..])
  {
  }

  /** A line break escaped as the code escapes it (not at all) ends the literal. */
  lemma ReadsEscapedBreak(p: string, rest: string)
    requires p != [] && IsLineBreak(p[0])
    ensures JsStringValue(Escape(p) + rest).None?
  {
    EscapeStep(p);
    assert (Escape(p) + rest)[0] == p[0];
    ReadsBareStop(Escape(p) + rest);
  }

  /** A character other than a backslash or line break, escaped as the code escapes it, reads as itself. */
  lemma ReadsEscapedHead(p: string, rest: string)
    requires p != [] && p[0] != '\\' && !IsLineBreak(p[0])
    ensures JsStringValue(Escape(p) + rest) == Cons(p[0], JsStringValue(Escape(p[1..]) + rest))
  {
    EscapeStep(p);
    assert (if p[0] == '\'' then "\\'" else [p[0]]) == ScriptEscapeChar(p[0]);
    assert Escape(p) + rest == ScriptEscapeChar(p[0]) + (Escape(p[1..]) + rest);
    ReadsEscapedChar(p[0], Escape(p[1..]) + rest);
  }

  /** A prefix without backslashes reads back as itself, ahead of whatever follows it. */
  lemma {:induction false} ReadsEscapedPrefix(p: string, rest: string)
    requires forall i :: 0 <= i < |p| ==> p[i] != '\\'
    ensures JsStringValue(Escape(p) + rest).Some? ==>
              JsStringValue(rest).Some? && JsStringValue(Escape(p) + rest).value == p + JsStringValue(rest).value
  {
    if p == [] {
      assert Escape(p) + rest == rest;
    } else if IsLineBreak(p[0]) {
      ReadsEscapedBreak(p, rest);
    } else {
      assert p[0] != '\\';
      ReadsEscapedHead(p, rest);
      assert forall i :: 0 <= i < |p[1..]| ==> p[1..][i] != '\\' by {
        forall i | 0 <= i < |p[1..]| ensures p[1..][i] != '\\' {
          assert p[1..][i] == p[i + 1];
        }
      }
      ReadsEscapedPrefix(p[1..], rest);
      if JsStringValue(Escape(p) + rest).Some? {
        var v := JsStringValue(rest).value;
        assert [p[0]] + (p[1..] + v) == ([p[0]] + p[1..]) + v;
        assert [p[0]] + p[1..] == p;
      }
    }
  }

  /** A backslash escape other than `\\`, once quote-escaped, does not read back as a backslash. */
  lemma ReadsSingleEscape(c: char, t: string)
    requires SingleEscape(c).Some? && c != '\\'
    ensures var v := JsStringValue(Escape(['\\', c] + t));
            v.Some? ==> v.value != [] && v.value[0] != '\\'
  {
    var s := ['\\', c] + t;
    var m := Escape([c] + t);
    var b := Escape(s);
    assert s[0] == '\\' && s[1..] == [c] + t;
    EscapeStep(s);
    assert b[0] == '\\' && b[1..] == m;
    assert ([c] + t)[0] == c && ([c] + t)[1..] == t;
    EscapeStep([c] + t);
    assert b[1] == m[0] && b[2..] == m[1..];
    if c == '\'' {
      assert m[0] == '\\' && m[1..] == "'" + Escape(t);
      ReadsSingleEscapeStep(b);
      assert b[2..][0] == '\'';
      ReadsBareStop(b[2..]);
      assert JsStringValue(b).None?;
    } else {
      assert m[0] == c;
      ReadsSingleEscapeStep(b);
      SingleEscapeOfOther(c);
      var e := SingleEscape(c).value;
      assert JsStringValue(b) == Cons(e, JsStringValue(b[2..])) && e != '\\';
    }
  }

  /**
   * For every message whose first backslash starts a single escape other than
   * `\\`, the code's escaping does not survive the literal: the page reads a
   * different text (or none at all).
   */
  lemma EscapeAltersFirstBackslashEscape(s: string, i: int)
    requires FirstBackslashEscapeAt(s, i)
    ensures JsStringValue(Escape(s)) != Some(s)
  {
    var p, c, t := s[..i], s[i + 1], s[i + 2..];
    var tail := ['\\', c] + t;
    assert s == p + tail;
    EscapeAppend(p, tail);
    ReadsEscapedPrefix(p, Escape(tail));
    ReadsSingleEscape(c, t);
  }

  /**
   * The code's escaping does not survive the literal when the message holds a
   * backslash escape, as JSON text does for a string with a double quote, a
   * backslash or a newline: `\"` reaches the page as a bare `"`, `\\` as one
   * backslash, `\n` as a line break.
   */
  lemma EscapeAltersBackslashEscapes()
    ensures JsStringValue(Escape("\\\"")) == Some("\"")
    ensures JsStringValue(Escape("\\\\")) == Some("\\")
    ensures JsStringValue(Escape("\\n")) == Some("\n")
  {
    assert Escape("\\\"") == "\\\"";
    assert Escape("\\\\") == "\\\\";
    assert Escape("\\n") == "\\n";
    assert SingleEscape('n') == Some('\n');
    assert JsStringValue("\\n") == Cons('\n', JsStringValue("\\n"[2..]));
    assert "\\n"[2..] == [];
    assert ['\n'] + [] == "\n";
  }

  /** An escaped string never starts with a bare quote: a quote is always turned into `\'`. */
  lemma EscapeHead(s: string)
    ensures Escape(s) == [] <==> s == []
    ensures s != [] ==> Escape(s)[0] == (if s[0] == '\'' then '\\' else s[0])
  {
  }

  /** The code's escaping loses nothing: distinct messages stay distinct, `Unescape` recovers the input. */
  lemma {:induction false} UnescapeEscape(s: string)
    ensures Unescape(Escape(s)) == s
  {
    if s != [] {
      var rest := Escape(s[1..]);
      UnescapeEscape(s[1..]);
      if s[0] == '\'' {
        assert Escape(s) == "\\'" + rest;
        assert ("\\'" + rest)[2..] == rest;
      } else {
        assert Escape(s) == [s[0]] + rest;
        assert ([s[0]] + rest)[1..] == rest;
        EscapeHead(s[1..]);
      }
    }
  }

  /** In an escaped string every single quote is preceded by a backslash. */
  lemma {:induction false} EscapedQuotesArePreceded(s: string)
    ensures forall i :: 0 <= i < |Escape(s)| && Escape(s)[i] == '\'' ==> 0 < i && Escape(s)[i - 1] == '\\'
  {
    if s != [] {
      var head := if s[0] == '\'' then "\\'" else [s[0]];
      var rest := Escape(s[1..]);
      assert Escape(s) == head + rest;
      EscapedQuotesArePreceded(s[1..]);
      EscapeHead(s[1..]);
      forall i | 0 <= i < |head + rest| && (head + rest)[i] == '\''
        ensures 0 < i && (head + rest)[i - 1] == '\\'
      {
        if i >= |head| {
          assert (head + rest)[i] == rest[i - |head|];
        }
      }
    }
  }
}
