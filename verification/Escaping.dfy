/** SerializerConversions::ValueToString(string) and UnescapeString. */
module Escaping {
  import opened Common

  const U16: nat := 0x1_0000

  function EscapeChar(c: char): string {
    if c == '"' then "\\\""
    else if c == '/' then "\\/"
    else if c == '\n' then "\\n"
    else if c == '\r' then "\\r"
    else if c == '\t' then "\\t"
    else if c == '\\' then "\\\\"
    else [c]
  }

  /** The character that a backslash followed by `c` stands for, if any. */
  function Decoded(c: char): Option<char> {
    if c == '"' then Some('"')
    else if c == '/' then Some('/')
    else if c == 'n' then Some('\n')
    else if c == 'r' then Some('\r')
    else if c == 't' then Some('\t')
    else if c == '\\' then Some('\\')
    else None
  }

  function Escape(s: string): string {
    if s == "" then "" else EscapeChar(s[0]) + Escape(s[1..])
  }

  predicate StartsEscape(t: string) {
    |t| > 1 && t[0] == '\\' && Decoded(t[1]).Some?
  }

  function Unescape(t: string): string {
    if t == "" then ""
    else if StartsEscape(t) then [Decoded(t[1]).value] + Unescape(t[2..])
    else [t[0]] + Unescape(t[1..])
  }

  /** Texts made of two-character escapes and of characters that need none. */
  predicate WellEscaped(t: string) {
    t == ""
    || (if StartsEscape(t) then WellEscaped(t[2..])
        else EscapeChar(t[0]) == [t[0]] && WellEscaped(t[1..]))
  }

  /** Where the first occurrence of `c` is that no backslash hides, or the length of the text. */
  function FirstBare(t: string, c: char): (n: nat)
    ensures n <= |t|
    ensures n < |t| ==> t[n] == c
  {
    if t == "" then 0
    else if t[0] == '\\' && |t| > 1 then 2 + FirstBare(t[2..], c)
    else if t[0] == c then 0
    else 1 + FirstBare(t[1..], c)
  }

  // ---------------------------------------------------------------------------------------------

  /** A character is either left as it is or becomes a backslash and the code of the character. */
  lemma EscapeCharForms(c: char)
    ensures var e := EscapeChar(c);
      if e == [c] then c !in {'\\', '"', '/'} else |e| == 2 && e[0] == '\\' && Decoded(e[1]) == Some(c)
  {
  }

  lemma UnescapeToken(c: char, rest: string)
    ensures Unescape(EscapeChar(c) + rest) == [c] + Unescape(rest)
  {
    EscapeCharForms(c);
    var e := EscapeChar(c);
    if e == [c] {
      PlainToken(c, rest);
    } else {
      CodedToken(e, c, rest);
    }
  }

  lemma PlainToken(c: char, rest: string)
    requires c != '\\'
    ensures Unescape([c] + rest) == [c] + Unescape(rest)
  {
    var t := [c] + rest;
    assert t[0] == c && t[1..] == rest;
  }

  lemma CodedToken(e: string, c: char, rest: string)
    requires |e| == 2 && e[0] == '\\' && Decoded(e[1]) == Some(c)
    ensures Unescape(e + rest) == [c] + Unescape(rest)
  {
    var t := e + rest;
    assert t[0] == e[0] && t[1] == e[1] && t[2..] == rest;
  }

  /** Unescaping undoes escaping, for every text. */
  lemma {:induction false} UnescapeEscape(s: string)
    ensures Unescape(Escape(s)) == s
  {
    if s != "" {
      UnescapeEscape(s[1..]);
      UnescapeToken(s[0], Escape(s[1..]));
    }
  }

  lemma EscapeInjective(s: string, s': string)
    requires Escape(s) == Escape(s')
    ensures s == s'
  {
    UnescapeEscape(s);
    UnescapeEscape(s');
  }

  /** The escaped texts are exactly the well-escaped ones, and on those escaping undoes unescaping. */
  lemma {:induction false} EscapeUnescape(t: string)
    ensures Escape(Unescape(t)) == t <==> WellEscaped(t)
    decreases |t|
  {
    if t == "" {
    } else if StartsEscape(t) {
      EscapeUnescape(t[2..]);
      var u := Unescape(t);
      assert u[1..] == Unescape(t[2..]);
      assert EscapeChar(u[0]) == t[..2];
      assert Escape(u) == t[..2] + Escape(Unescape(t[2..]));
      assert t == t[..2] + t[2..];
    } else {
      EscapeUnescape(t[1..]);
      var u := Unescape(t);
      assert u[0] == t[0] && u[1..] == Unescape(t[1..]);
      assert Escape(u) == EscapeChar(t[0]) + Escape(Unescape(t[1..]));
      if EscapeChar(t[0]) == [t[0]] {
        assert t == [t[0]] + t[1..];
      } else {
        EscapedStartDiffers(t, Escape(Unescape(t[1..])));
      }
    }
  }

  /** A text that starts with a character that needs an escape, but not with one, is not an escaped text. */
  lemma EscapedStartDiffers(t: string, rest: string)
    requires t != "" && !StartsEscape(t) && EscapeChar(t[0]) != [t[0]]
    ensures EscapeChar(t[0]) + rest != t
  {
    var e := EscapeChar(t[0]);
    assert |e| == 2 && e[0] == '\\' && Decoded(e[1]).Some?;
    assert (e + rest)[0] == e[0] && (e + rest)[1] == e[1];
  }

  lemma EscapeIsWellEscaped(s: string)
    ensures WellEscaped(Escape(s))
  {
    UnescapeEscape(s);
    EscapeUnescape(Escape(s));
  }

  /** Escaping at most doubles a text, and only the empty text becomes empty. */
  lemma {:induction false} EscapeLength(s: string)
    ensures |s| <= |Escape(s)| <= 2 * |s|
  {
    if s != "" { EscapeLength(s[1..]); }
  }

  /** No raw line feed, carriage return or tab is left. */
  lemma {:induction false} NoRawControl(s: string, k: nat)
    requires k < |Escape(s)|
    ensures Escape(s)[k] !in {'\n', '\r', '\t'}
  {
    if s != "" && k >= |EscapeChar(s[0])| {
      NoRawControl(s[1..], k - |EscapeChar(s[0])|);
    }
  }

  lemma BareToken(x: char, rest: string, c: char)
    requires c == '"' || c == '/'
    ensures FirstBare(EscapeChar(x) + rest, c) == |EscapeChar(x)| + FirstBare(rest, c)
  {
    EscapeCharForms(x);
    var t := EscapeChar(x) + rest;
    if EscapeChar(x) == [x] {
      assert t[0] == x && t[1..] == rest;
    } else {
      assert t[0] == '\\' && t[2..] == rest;
    }
  }

  /** No quote or slash of an escaped text is bare, so the first bare one lies behind it. */
  lemma {:induction false} NothingBare(s: string, rest: string, c: char)
    requires c == '"' || c == '/'
    ensures FirstBare(Escape(s) + rest, c) == |Escape(s)| + FirstBare(rest, c)
  {
    if s == "" {
      assert Escape(s) + rest == rest;
    } else {
      NothingBare(s[1..], rest, c);
      BareToken(s[0], Escape(s[1..]) + rest, c);
      assert Escape(s) + rest == EscapeChar(s[0]) + (Escape(s[1..]) + rest);
    }
  }

  /** A quoted text ends at its first bare quote, whatever follows it. */
  lemma QuotedTextIsDelimited(s: string, rest: string)
    ensures var t := Escape(s) + "\"" + rest;
      var n := FirstBare(t, '"'); n < |t| && Unescape(t[..n]) == s && t[n + 1..] == rest
  {
    var t := Escape(s) + "\"" + rest;
    assert t == Escape(s) + ("\"" + rest);
    NothingBare(s, "\"" + rest, '"');
    assert t[..|Escape(s)|] == Escape(s);
    UnescapeEscape(s);
  }

  lemma {:induction false} EscapeSnoc(s: string, n: nat)
    requires n < |s|
    ensures Escape(s[..n + 1]) == Escape(s[..n]) + EscapeChar(s[n])
  {
    if n > 0 {
      EscapeSnoc(s[1..], n - 1);
      assert s[..n + 1][1..] == s[1..][..n];
      assert s[..n][1..] == s[1..][..n - 1];
    } else {
      assert s[..1][1..] == "";
    }
  }

  // ---------------------------------------------------------------------------------------------
  // The loops. Their index is an unsigned short: on a text of 65536 characters or more it wraps to 0 before it
  // reaches the end, so neither loop ends; that is all the preconditions exclude.

  /** ++i on an unsigned short. */
  function Next16(i: nat): (r: nat)
    ensures i + 1 < U16 ==> r == i + 1
  {
    (i + 1) % U16
  }

  function Written(s: string, escape: bool): string {
    if escape then Escape(s) else s
  }

  /** One round of the escaping loop. */
  lemma EscapeAt(value: string, i: nat, output: string, escape: bool)
    requires i < |value|
    ensures output + Written(value[..i], escape) + (if escape then EscapeChar(value[i]) else [value[i]])
         == output + Written(value[..i + 1], escape)
  {
    EscapeSnoc(value, i);
    assert value[..i + 1] == value[..i] + [value[i]];
  }

  method ValueToString(value: string, includeQuotes: bool, escape: bool) returns (output: string)
    requires |value| < U16
    ensures output == (if includeQuotes then "\"" else "")
                    + Written(value, escape)
                    + (if includeQuotes then "\"" else "")
  {
    output := if includeQuotes then "\"" else "";
    ghost var open := output;
    var i: nat := 0;
    while i < |value|
      invariant i <= |value|
      invariant output == open + Written(value[..i], escape)
    {
      var c := value[i];
      EscapeAt(value, i, open, escape);
      output := output + if escape then EscapeChar(c) else [c];
      i := Next16(i);
    }
    assert value[..i] == value;
    return output + (if includeQuotes then "\"" else "");
  }

  method UnescapeString(value: string) returns (output: string)
    requires |value| < U16
    ensures output == Unescape(value)
  {
    output := "";
    var i: nat := 0;
    while i < |value|
      invariant i <= |value|
      invariant output + Unescape(value[i..]) == Unescape(value)
    {
      var c1 := value[i];
      var c2 := if i + 1 < |value| then value[i + 1] else '\0';
      UnescapeAt(value, i, output);
      if c1 == '\\' {
        var decoded := Decoded(c2);
        if decoded.Some? {
          output := output + [decoded.value];
          i := Next16(i);
          i := Next16(i);
          continue;
        }
      }
      output := output + [c1];
      i := Next16(i);
    }
  }

  /** One round of the unescaping loop. */
  lemma UnescapeAt(value: string, i: nat, output: string)
    requires i < |value|
    ensures i + 1 < |value| && value[i] == '\\' && Decoded(value[i + 1]).Some? ==>
      output + Unescape(value[i..]) == output + [Decoded(value[i + 1]).value] + Unescape(value[i + 2..])
    ensures !(i + 1 < |value| && value[i] == '\\' && Decoded(value[i + 1]).Some?) ==>
      output + Unescape(value[i..]) == output + [value[i]] + Unescape(value[i + 1..])
  {
    var t := value[i..];
    assert t[0] == value[i] && t[1..] == value[i + 1..];
    if i + 1 < |value| {
      assert t[1] == value[i + 1] && t[2..] == value[i + 2..];
    }
  }

  /** Writing a text and reading it back, with the two loops. */
  method WriteAndRead(s: string) returns (t: string, u: string)
    requires |Escape(s)| < U16
    ensures t == Escape(s) && u == s
  {
    EscapeLength(s);
    t := ValueToString(s, false, true);
    u := UnescapeString(t);
    UnescapeEscape(s);
  }
}
