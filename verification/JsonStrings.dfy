/** Escaped texts against the strings of JSON, as section 7 of RFC 8259 defines them, but without \u escapes. */
module JsonStrings {
  import opened Common
  import opened Escaping

  /** What a backslash and a letter stand for, by the code point. */
  function JsonChar(letter: char): Option<char> {
    match letter
    case '"' => Some(0x22 as char)
    case '\\' => Some(0x5C as char)
    case '/' => Some(0x2F as char)
    case 'b' => Some(0x08 as char)
    case 'f' => Some(0x0C as char)
    case 'n' => Some(0x0A as char)
    case 'r' => Some(0x0D as char)
    case 't' => Some(0x09 as char)
    case _ => None
  }

  /** The text between the quotes of a JSON string, or None where the grammar forbids it. */
  function JsonRead(t: string): Option<string> {
    if t == "" then Some("")
    else if t[0] == '\\' then
      if |t| > 1 && JsonChar(t[1]).Some? then Before(JsonChar(t[1]).value, JsonRead(t[2..])) else None
    else if t[0] == '"' || (t[0] as int) < 0x20 then None
    else Before(t[0], JsonRead(t[1..]))
  }

  function Before(c: char, rest: Option<string>): Option<string> {
    if rest.None? then None else Some([c] + rest.value)
  }

  /** Every control character has a letter that the escaping writes. */
  predicate HasLetters(s: string) {
    forall i :: 0 <= i < |s| ==> PlainOrLetter(s[i])
  }

  predicate PlainOrLetter(c: char) { (c as int) >= 0x20 || c as int in {0x09, 0x0A, 0x0D} }

  lemma EscapeCharIsJson(c: char)
    ensures var e := EscapeChar(c);
      if |e| == 2 then e[0] == '\\' && JsonChar(e[1]) == Some(c) && PlainOrLetter(c)
      else e == [c] && c != '\\' && c != '"' && (PlainOrLetter(c) <==> (c as int) >= 0x20)
  {
  }

  lemma PairToken(e: string, c: char, rest: string)
    requires |e| == 2 && e[0] == '\\' && JsonChar(e[1]) == Some(c)
    ensures JsonRead(e + rest) == Before(c, JsonRead(rest))
  {
    assert (e + rest)[2..] == rest;
  }

  lemma SingleToken(e: string, c: char, rest: string)
    requires e == [c] && c != '\\' && c != '"'
    ensures JsonRead(e + rest) == if (c as int) < 0x20 then None else Before(c, JsonRead(rest))
  {
    assert (e + rest)[1..] == rest;
  }

  lemma JsonToken(c: char, rest: string)
    ensures JsonRead(EscapeChar(c) + rest) == if PlainOrLetter(c) then Before(c, JsonRead(rest)) else None
  {
    EscapeCharIsJson(c);
    if |EscapeChar(c)| == 2 {
      PairToken(EscapeChar(c), c, rest);
    } else {
      SingleToken(EscapeChar(c), c, rest);
    }
  }

  /** An escaped text is a JSON string for the text, unless the text has a control character without a letter. */
  lemma {:induction false} EscapedIsJson(s: string)
    ensures JsonRead(Escape(s)) == if HasLetters(s) then Some(s) else None
  {
    if s != "" {
      EscapedIsJson(s[1..]);
      JsonToken(s[0], Escape(s[1..]));
      LettersOf(s);
      assert [s[0]] + s[1..] == s;
    }
  }

  lemma LettersOf(s: string)
    requires s != ""
    ensures HasLetters(s) <==> PlainOrLetter(s[0]) && HasLetters(s[1..])
  {
    if HasLetters(s[1..]) && PlainOrLetter(s[0]) {
      forall i | 0 <= i < |s| ensures PlainOrLetter(s[i]) {
        assert i > 0 ==> s[i] == s[1..][i - 1];
      }
    }
  }

  /** The text has one of the two escapes that unescaping does not know, \b and \f. */
  predicate HasBackspaceOrFormFeed(t: string) {
    |t| > 1
    && (if t[0] == '\\' then t[1] in {'b', 'f'} || HasBackspaceOrFormFeed(t[2..]) else HasBackspaceOrFormFeed(t[1..]))
  }

  /** Unescaping a JSON string never gives less than the string, and more with each escape that it does not know. */
  lemma {:induction false} UnescapeAgainstJson(t: string)
    requires JsonRead(t).Some?
    ensures |Unescape(t)| >= |JsonRead(t).value|
    ensures if HasBackspaceOrFormFeed(t) then |Unescape(t)| > |JsonRead(t).value| else Unescape(t) == JsonRead(t).value
    decreases |t|
  {
    if t == "" {
    } else if t[0] == '\\' {
      var rest := t[2..];
      UnescapeAgainstJson(rest);
      if t[1] in {'b', 'f'} {
        UnknownEscape(t, rest);
      }
    } else {
      UnescapeAgainstJson(t[1..]);
    }
  }

  lemma {:induction false} UnknownEscape(t: string, rest: string)
    requires |t| > 1 && t[0] == '\\' && t[1] in {'b', 'f'} && rest == t[2..]
    ensures Unescape(t) == [t[0]] + ([t[1]] + Unescape(rest))
  {
    assert t[1..][1..] == rest;
    assert !StartsEscape(t) && !StartsEscape(t[1..]);
  }

  /** Unescaping reads a JSON string correctly exactly when it has neither \b nor \f. */
  lemma UnescapeReadsJson(t: string)
    requires JsonRead(t).Some?
    ensures Unescape(t) == JsonRead(t).value <==> !HasBackspaceOrFormFeed(t)
  {
    UnescapeAgainstJson(t);
  }
}
