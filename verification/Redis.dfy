/** RedisMessage: writing a message in the RESP format and parsing replies (Redis.struct.h). */
module RedisMessages {
  import opened Common
  import opened Escaping
  import opened RedisText

  // ---------------------------------------------------------------------------------------------
  // What the text of a message is, and what one parsing step takes from a text.

  /** RESP bulk string: $<length>\r\n<data>\r\n. */
  function Bulk(x: string): string {
    "$" + Decimal(|x|) + CRLF + x + CRLF
  }

  function Body(items: seq<string>): string {
    if items == [] then "" else Bulk(items[0]) + Body(items[1..])
  }

  function ArrayHeader(n: nat): string { "*" + Decimal(n) + CRLF }

  const EMPTY_NOTICE: string := "Tried to convert empty Redis message into string!"

  function Text(items: seq<string>): string {
    if |items| > 1 then ArrayHeader(|items|) + Body(items)
    else if |items| == 1 then items[0] + CRLF
    else EMPTY_NOTICE
  }

  /** The item that ParseItem reads at position i, and the position it returns. */
  function ItemAt(s: string, i: int): (string, int) {
    var c := CharAt(s, i);
    if c == '$' then BulkAt(s, i + 1, Skip(s, i + 1))
    else if c == ':' then LineAt(s, i + 1, Skip(s, i + 1))
    else LineAt(s, i, Skip(s, i))
  }

  /** The rest of a line, and the position of the next one. */
  function LineAt(s: string, from: int, length: int): (string, int) {
    (Substr(s, from, length), from + length + 2)
  }

  /** The data of a bulk string whose length is given in the line, and the position behind its newline. */
  function BulkAt(s: string, from: int, length: int): (string, int) {
    LineAt(s, from + length + 2, ToInteger(Substr(s, from, length)))
  }

  /** n steps of a reader, each from where the one before it stopped. */
  function Steps(step: int -> (string, int), i: int, n: nat): (seq<string>, int)
    decreases n
  {
    if n == 0 then ([], i)
    else
      var (x, next) := step(i);
      var (xs, end) := Steps(step, next, n - 1);
      ([x] + xs, end)
  }

  function Reader(s: string): int -> (string, int) {
    (k: int) => ItemAt(s, k)
  }

  /** n calls of ParseItem from position i on. */
  function ItemsAt(s: string, i: int, n: nat): (seq<string>, int) {
    Steps(Reader(s), i, n)
  }

  /** Lengths and counts fit the platform's int. */
  predicate Fits(items: seq<string>) {
    |items| < I32 && forall x :: x in items ==> |x| < I32
  }

  // ---------------------------------------------------------------------------------------------
  // Round trip.

  lemma BulkStep(pre: string, x: string, rest: string)
    requires |x| < I32
    ensures ItemAt(pre + Bulk(x) + rest, |pre|) == (x, |pre| + |Bulk(x)|)
  {
    DigitsHaveNoCrlf(|x|);
    DecimalRoundTrip(|x|);
    ReadsBulk(pre, Decimal(|x|), x, rest, pre + Bulk(x) + rest);
  }

  /** Where the parts of a bulk string stand. */
  lemma BulkLayout(pre: string, d: string, x: string, rest: string, s: string)
    requires s == pre + ("$" + d + CRLF + x + CRLF) + rest
    ensures s == (pre + "$") + d + CRLF + (x + CRLF + rest)
    ensures |pre| + |d| + |x| + 5 <= |s| && s[|pre|] == '$'
    ensures s[|pre| + 1..|pre| + 1 + |d|] == d
    ensures s[|pre| + |d| + 3..|pre| + |d| + 3 + |x|] == x
  {
    var n := |pre| + |d| + 3;
    assert s == (pre + "$" + d + CRLF) + x + (CRLF + rest);
    assert s[n..n + |x|] == x;
  }

  lemma SubstrIs(s: string, from: nat, x: string)
    requires from + |x| < |s| && s[from..from + |x|] == x
    ensures Substr(s, from, |x|) == x
  {
  }

  lemma BulkSubstrings(pre: string, d: string, x: string, rest: string, s: string)
    requires s == pre + ("$" + d + CRLF + x + CRLF) + rest
    ensures CharAt(s, |pre|) == '$'
    ensures Substr(s, |pre| + 1, |d|) == d && Substr(s, |pre| + 1 + |d| + 2, |x|) == x
  {
    BulkLayout(pre, d, x, rest, s);
    SubstrIs(s, |pre| + 1, d);
    SubstrIs(s, |pre| + |d| + 3, x);
  }

  lemma ReadsBulk(pre: string, d: string, x: string, rest: string, s: string)
    requires !HasCrlf(d) && ToInteger(d) == |x|
    requires s == pre + ("$" + d + CRLF + x + CRLF) + rest
    ensures ItemAt(s, |pre|) == (x, |pre| + |d| + |x| + 5)
  {
    BulkLayout(pre, d, x, rest, s);
    BulkSubstrings(pre, d, x, rest, s);
    SkipFinds(pre + "$", d, x + CRLF + rest);
    ReadsParts(s, |pre|, d, x);
  }

  lemma ReadsParts(s: string, i: nat, d: string, x: string)
    requires ToInteger(d) == |x| && CharAt(s, i) == '$' && Skip(s, i + 1) == |d|
    requires Substr(s, i + 1, |d|) == d && Substr(s, i + 1 + |d| + 2, |x|) == x
    ensures ItemAt(s, i) == (x, i + |d| + |x| + 5)
  {
    BulkAtIs(s, i + 1, |d|, d, x);
  }

  lemma BulkAtIs(s: string, from: nat, length: nat, d: string, x: string)
    requires Substr(s, from, length) == d && ToInteger(d) == |x| && Substr(s, from + length + 2, |x|) == x
    ensures BulkAt(s, from, length) == (x, from + length + |x| + 4)
  {
  }

  /** The text `part` stands at position i. */
  ghost predicate At(s: string, i: nat, part: string) {
    i + |part| <= |s| && s[i..i + |part|] == part
  }

  lemma AtSplit(s: string, i: nat, a: string, b: string)
    requires At(s, i, a + b)
    ensures At(s, i, a) && At(s, i + |a|, b)
  {
    var ab := s[i..i + |a + b|];
    assert s[i..i + |a|] == ab[..|a|];
    assert s[i + |a|..i + |a| + |b|] == ab[|a|..];
  }

  /** One step at position i gives x and goes on at `next`. */
  ghost predicate Reads(s: string, i: nat, x: string, next: nat) {
    ItemAt(s, i) == (x, next)
  }

  lemma BulkStepAt(s: string, i: nat, x: string, next: nat)
    requires |x| < I32 && At(s, i, Bulk(x)) && next == i + |Bulk(x)|
    ensures Reads(s, i, x, next)
  {
    var pre, rest := s[..i], s[i + |Bulk(x)|..];
    assert s == pre + Bulk(x) + rest;
    BulkStep(pre, x, rest);
  }

  lemma {:induction false} StepsAlong(step: int -> (string, int), at: seq<nat>, items: seq<string>)
    requires |at| == |items| + 1
    requires forall k :: 0 <= k < |items| ==> step(at[k]) == (items[k], at[k + 1])
    ensures Steps(step, at[0], |items|) == (items, at[|items|])
    decreases |items|
  {
    if items != [] {
      var at', items' := at[1..], items[1..];
      forall k | 0 <= k < |items'| ensures step(at'[k]) == (items'[k], at'[k + 1]) {
        assert step(at[k + 1]) == (items[k + 1], at[k + 2]);
      }
      StepsAlong(step, at', items');
      assert step(at[0]) == (items[0], at[1]);
      assert items == [items[0]] + items';
    }
  }

  ghost predicate ReadsAll(s: string, at: seq<nat>, items: seq<string>) {
    |at| == |items| + 1 && forall k :: 0 <= k < |items| ==> Reads(s, at[k], items[k], at[k + 1])
  }

  lemma {:induction false} RunEnds(s: string, i: nat, items: seq<string>, end: nat, at: seq<nat>)
    requires ReadsAll(s, at, items) && at[0] == i && at[|items|] == end
    ensures ItemsAt(s, i, |items|) == (items, end)
  {
    var step := Reader(s);
    forall k | 0 <= k < |items| ensures step(at[k]) == (items[k], at[k + 1]) {
      assert Reads(s, at[k], items[k], at[k + 1]);
    }
    StepsAlong(step, at, items);
  }

  lemma ItemsUnroll(s: string, i: int, n: nat, before: seq<string>, first: (string, int))
    requires n > 0 && first == ItemAt(s, i)
    ensures before + ItemsAt(s, i, n).0 == before + [first.0] + ItemsAt(s, first.1, n - 1).0
  {
    assert Reader(s)(i) == first;
    assert ItemsAt(s, i, n).0 == [first.0] + ItemsAt(s, first.1, n - 1).0;
  }

  lemma NoItemsLeft(s: string, i: int, items: seq<string>)
    ensures items + ItemsAt(s, i, 0).0 == items
  {
  }

  /** Where the items of a body at position i begin, and where it ends. */
  function Positions(i: nat, items: seq<string>): (at: seq<nat>)
    ensures |at| == |items| + 1 && at[0] == i && at[|items|] == i + |Body(items)|
    decreases |items|
  {
    if items == [] then [i] else [i] + Positions(i + |Bulk(items[0])|, items[1..])
  }

  lemma {:induction false} BodyHead(s: string, i: nat, items: seq<string>)
    requires items != [] && At(s, i, Body(items))
    ensures At(s, i, Bulk(items[0])) && At(s, i + |Bulk(items[0])|, Body(items[1..]))
  {
    AtSplit(s, i, Bulk(items[0]), Body(items[1..]));
  }

  lemma {:induction false} NextPosition(i: nat, items: seq<string>, k: nat)
    requires k < |items|
    ensures Positions(i, items)[k + 1] == Positions(i + |Bulk(items[0])|, items[1..])[k]
  {
  }

  /** The bulk string of x stands at position i and ends at `next`. */
  ghost predicate StandsAt(s: string, i: nat, next: nat, x: string) {
    At(s, i, Bulk(x)) && next == i + |Bulk(x)|
  }

  lemma {:induction false} FirstPositions(i: nat, items: seq<string>)
    requires items != []
    ensures Positions(i, items)[0] == i && Positions(i, items)[1] == i + |Bulk(items[0])|
  {
  }

  lemma {:induction false} BodyItem(s: string, i: nat, items: seq<string>, k: nat)
    requires k < |items| && At(s, i, Body(items))
    ensures StandsAt(s, Positions(i, items)[k], Positions(i, items)[k + 1], items[k])
    decreases |items|
  {
    BodyHead(s, i, items);
    if k == 0 {
      FirstPositions(i, items);
    } else {
      NextPosition(i, items, k);
      NextPosition(i, items, k - 1);
      BodyItem(s, i + |Bulk(items[0])|, items[1..], k - 1);
    }
  }

  /** Parsing the body item by item from its first item recovers every item and ends where the body ends. */
  lemma {:induction false} BodyRoundTrip(s: string, i: nat, items: seq<string>)
    requires forall x :: x in items ==> |x| < I32
    requires At(s, i, Body(items))
    ensures ItemsAt(s, i, |items|) == (items, i + |Body(items)|)
  {
    ReadToTheEnd(s, i, items, Positions(i, items), i + |Body(items)|);
  }

  lemma {:induction false} ReadToTheEnd(s: string, i: nat, items: seq<string>, at: seq<nat>, end: nat)
    requires at == Positions(i, items) && end == i + |Body(items)| && At(s, i, Body(items))
    requires forall x :: x in items ==> |x| < I32
    ensures ItemsAt(s, i, |items|) == (items, end)
  {
    PositionsRead(s, i, items, at);
    RunEnds(s, i, items, end, at);
  }

  lemma {:induction false} PositionsRead(s: string, i: nat, items: seq<string>, at: seq<nat>)
    requires at == Positions(i, items) && At(s, i, Body(items))
    requires forall x :: x in items ==> |x| < I32
    ensures ReadsAll(s, at, items)
  {
    forall k | 0 <= k < |items| ensures Reads(s, at[k], items[k], at[k + 1]) {
      BodyItem(s, i, items, k);
      BulkStepAt(s, at[k], items[k], at[k + 1]);
    }
  }

  lemma StandsBehind(text: string, header: string, body: string)
    requires text == header + body
    ensures At(text, |header|, body) && |header| + |body| == |text|
  {
  }

  lemma {:induction false} TextRoundTrip(text: string, i: nat, body: string, items: seq<string>)
    requires At(text, i, body) && body == Body(items) && i + |body| == |text| && forall x :: x in items ==> |x| < I32
    ensures ItemsAt(text, i, |items|) == (items, |text|)
  {
    BodyRoundTrip(text, i, items);
  }

  /** In particular from the start of the body of a message to the end of the message. */
  lemma MessageRoundTrip(items: seq<string>)
    requires |items| > 1 && Fits(items)
    ensures ItemsAt(Text(items), |ArrayHeader(|items|)|, |items|) == (items, |Text(items)|)
  {
    StandsBehind(Text(items), ArrayHeader(|items|), Body(items));
    TextRoundTrip(Text(items), |ArrayHeader(|items|)|, Body(items), items);
  }

  // ---------------------------------------------------------------------------------------------
  // FromString as written: the position behind the header is used again inside the text behind the header.

  function FindCr(s: string, i: nat): (r: Option<nat>)
    ensures r.Some? ==> i <= r.value < |s| && s[r.value] == '\r'
    decreases |s| - i
  {
    if i >= |s| then None else if s[i] == '\r' then Some(i) else FindCr(s, i + 1)
  }

  /** The items that FromString appends, or None where it reads outside the text. */
  function ReceivedItems(message: string): Option<seq<string>> {
    if message == "" then None
    else if message[0] == '*' then
      var cr := FindCr(message, 1);
      if cr.None? then None
      else
        var n := ToInteger(Substr(message, 1, cr.value - 1));
        var i := cr.value + 2;
        Some(ItemsAt(Substr(message, i, -1), i, if n < 0 then 0 else n).0)
    else Some([ItemAt(message, 0).0])
  }

  lemma {:induction false} FindCrAfterDigits(n: nat, rest: string, i: nat)
    requires 1 <= i <= 1 + |Decimal(n)|
    ensures FindCr(ArrayHeader(n) + rest, i) == Some(1 + |Decimal(n)|)
    decreases |Decimal(n)| + 1 - i
  {
    var s := ArrayHeader(n) + rest;
    if i == 1 + |Decimal(n)| {
      assert s[i] == '\r';
    } else {
      assert s[i] == Decimal(n)[i - 1];
      FindCrAfterDigits(n, rest, i + 1);
    }
  }

  /** On an array message FromString starts |header| characters into the body. */
  lemma ReceivedFromArray(items: seq<string>)
    requires |items| > 1 && Fits(items)
    ensures ReceivedItems(Text(items)) == Some(ItemsAt(Body(items), |ArrayHeader(|items|)|, |items|).0)
  {
    var n := |items|;
    var message := Text(items);
    FindCrAfterDigits(n, Body(items), 1);
    assert message[1..1 + |Decimal(n)|] == Decimal(n);
    DecimalRoundTrip(n);
    assert Body(items) != "";
    assert message[|ArrayHeader(n)|..] == Body(items);
  }

  /** The condition under which that lands on the data of the first item and reads just this data. */
  ghost predicate HeaderAligned(items: seq<string>)
    requires items != []
  {
    && |Decimal(|items|)| == |Decimal(|items[0]|)|
    && !HasCrlf(items[0])
    && !(items[0] != "" && items[0][0] in {'$', ':'})
  }

  lemma PlainStep(pre: string, data: string, rest: string)
    requires !HasCrlf(data) && !(data != "" && data[0] in {'$', ':'})
    ensures ItemAt(pre + data + CRLF + rest, |pre|) == (data, |pre| + |data| + 2)
  {
    var s := pre + data + CRLF + rest;
    SkipFinds(pre, data, rest);
    assert CharAt(s, |pre|) == if data == "" then '\r' else data[0];
    assert s[|pre|..|pre| + |data|] == data;
  }

  /** The body in front of, inside and behind the data of its first item. */
  lemma BodyParts(items: seq<string>)
    requires items != []
    ensures Body(items) == ("$" + Decimal(|items[0]|) + CRLF) + items[0] + CRLF + Body(items[1..])
  {
  }

  lemma AlignedReceives(items: seq<string>)
    requires |items| > 1 && Fits(items) && HeaderAligned(items)
    ensures ReceivedItems(Text(items)) == Some(items)
  {
    ReceivedFromArray(items);
    BodyParts(items);
    AlignedItems("$" + Decimal(|items[0]|) + CRLF, items, Body(items), Body(items[1..]));
  }

  lemma {:induction false} AlignedItems(pre: string, items: seq<string>, s: string, rest: string)
    requires items != [] && Fits(items)
    requires rest == Body(items[1..]) && s == pre + items[0] + CRLF + rest
    requires !HasCrlf(items[0]) && !(items[0] != "" && items[0][0] in {'$', ':'})
    ensures ItemsAt(s, |pre|, |items|).0 == items
  {
    var next := |pre| + |items[0]| + 2;
    PlainStep(pre, items[0], rest);
    EndsWith(s, pre + items[0] + CRLF, rest);
    BodyRoundTrip(s, next, items[1..]);
    FirstThenRest(s, |pre|, items, next);
  }

  lemma {:induction false} FirstThenRest(s: string, i: int, items: seq<string>, next: int)
    requires items != [] && ItemAt(s, i) == (items[0], next) && ItemsAt(s, next, |items| - 1).0 == items[1..]
    ensures ItemsAt(s, i, |items|).0 == items
  {
    ItemsUnroll(s, i, |items|, [], (items[0], next));
    assert items == [items[0]] + items[1..];
  }

  lemma EndsWith(s: string, front: string, rest: string)
    requires s == front + rest
    ensures At(s, |front|, rest)
  {
  }

  // The other direction: what the first parsing step reads when the condition fails.

  /** A first item that starts like a number, or contains a CRLF, comes back shorter. */
  lemma MisreadData(pre: string, data: string, rest: string)
    requires data != "" && data[0] != '$'
    requires HasCrlf(data) || data[0] == ':'
    ensures |ItemAt(pre + data + CRLF + rest, |pre|).0| < |data|
  {
    var s := pre + data + CRLF + rest;
    assert s[|pre|] == data[0];
    if data[0] == ':' {
      var tail := data[1..];
      assert s == (pre + ":") + tail + CRLF + rest;
      SkipStopsEarly(pre + ":", tail, rest);
    } else {
      SkipStopsEarly(pre, data, rest);
    }
  }

  /** A header with fewer digits than the length of the first item: the start lies in front of the data. */
  lemma MisreadHeader(items: seq<string>)
    requires |items| > 1 && Fits(items)
    requires |Decimal(|items|)| < |Decimal(|items[0]|)|
    ensures ItemAt(Body(items), |ArrayHeader(|items|)|).0 != items[0]
  {
    BodyParts(items);
    DecimalLength(|items[0]|);
    MisreadBefore(Decimal(|items[0]|), items[0], Body(items[1..]), |Decimal(|items|)|);
  }

  /** From a position h digits into what stands in front of the data. */
  lemma MisreadBefore(d: string, x: string, rest: string, h: nat)
    requires (forall k :: 0 <= k < |d| ==> IsDigit(d[k])) && 1 <= h < |d| <= |x|
    ensures ItemAt(("$" + d + CRLF) + x + CRLF + rest, 3 + h).0 != x
  {
    if h + 1 == |d| {
      NewlineSplit(d, x, rest);
      MisreadFromNewline("$" + d + "\r", x, rest);
    } else {
      MisreadFromDigits(d, x, rest, |d| - h - 2);
    }
  }

  lemma NewlineSplit(d: string, x: string, rest: string)
    ensures ("$" + d + CRLF) + x + CRLF + rest == ("$" + d + "\r") + ("\n" + x) + CRLF + rest
  {
  }

  lemma DigitsSplit(d: string, shown: nat, rest: string)
    requires shown <= |d|
    ensures ("$" + d + CRLF) + rest == ("$" + d[..|d| - shown]) + d[|d| - shown..] + CRLF + rest
  {
    assert d == d[..|d| - shown] + d[|d| - shown..];
  }

  /** The start lies on the newline in front of the data. */
  lemma MisreadFromNewline(pre: string, x: string, rest: string)
    ensures ItemAt(pre + ("\n" + x) + CRLF + rest, |pre|).0 != x
  {
    var s := pre + ("\n" + x) + CRLF + rest;
    assert s[|pre|] == '\n';
    if HasCrlf(x) {
      MisreadAfterNewline(pre, x, rest);
    } else {
      NewlineInFront(x);
      SkipFinds(pre, "\n" + x, rest);
    }
  }

  /** The start lies on one of the last digits of the length, or on the CRLF behind them. */
  lemma MisreadFromDigits(d: string, x: string, rest: string, shown: nat)
    requires (forall k :: 0 <= k < |d| ==> IsDigit(d[k])) && shown + 2 < |d| <= |x|
    ensures ItemAt(("$" + d + CRLF) + x + CRLF + rest, 1 + |d| - shown).0 != x
  {
    var pre, digits := "$" + d[..|d| - shown], d[|d| - shown..];
    DigitsSplit(d, shown, x + CRLF + rest);
    assert ("$" + d + CRLF) + x + CRLF + rest == ("$" + d + CRLF) + (x + CRLF + rest);
    ShortRead(pre, digits, x + CRLF + rest);
  }

  lemma ShortRead(pre: string, digits: string, rest: string)
    requires forall k :: 0 <= k < |digits| ==> IsDigit(digits[k])
    ensures |ItemAt(pre + digits + CRLF + rest, |pre|).0| <= |digits|
  {
    var s := pre + digits + CRLF + rest;
    SkipStopsEarly(pre, digits, rest);
    assert CharAt(s, |pre|) == if digits == "" then '\r' else digits[0];
  }

  lemma NewlineInFront(x: string)
    ensures HasCrlf("\n" + x) <==> HasCrlf(x)
  {
    var y := "\n" + x;
    if HasCrlf(x) {
      var k :| 0 <= k && k + 1 < |x| && x[k] == '\r' && x[k + 1] == '\n';
      assert y[k + 1] == '\r' && y[k + 2] == '\n';
    }
    if HasCrlf(y) {
      var k :| 0 <= k && k + 1 < |y| && y[k] == '\r' && y[k + 1] == '\n';
      assert x[k - 1] == '\r' && x[k] == '\n';
    }
  }

  /** With a CRLF in the data the text read from its newline on has at most one character less than needed. */
  lemma MisreadAfterNewline(pre: string, x: string, rest: string)
    requires HasCrlf(x)
    ensures Skip(pre + ("\n" + x) + CRLF + rest, |pre|) < |x|
  {
    var k :| 0 <= k && k + 1 < |x| && x[k] == '\r' && x[k + 1] == '\n';
    var front, back := x[..k], x[k + 2..];
    assert x == front + CRLF + back;
    var s := pre + ("\n" + x) + CRLF + rest;
    assert s == pre + ("\n" + front) + CRLF + (back + CRLF + rest);
    SkipStopsEarly(pre, "\n" + front, back + CRLF + rest);
  }

  /** How many characters of the first item the start lies behind when the count has more digits than its length. */
  function Shift(items: seq<string>): nat
    requires items != []
  {
    var n, m := |Decimal(|items|)|, |Decimal(|items[0]|)|;
    if n > m then n - m else 0
  }

  /** The start lies inside the data of the first item or on its CRLF, and not on a '$'. */
  predicate StartsInFirst(items: seq<string>)
    requires items != []
  {
    && (Shift(items) <= |items[0]| || Shift(items) == 1)
    && CharAt(items[0], Shift(items)) != '$'
  }

  /** From a position h characters into the data what is read is shorter than the data. */
  lemma MisreadInside(pre: string, x: string, rest: string, h: nat)
    requires 0 < h <= |x| && CharAt(x, h) != '$'
    ensures |ItemAt(pre + x + CRLF + rest, |pre| + h).0| < |x|
  {
    var front, back := pre + x[..h], x[h..];
    var s := front + back + CRLF + rest;
    assert x == x[..h] + back;
    assert pre + x + CRLF + rest == s;
    assert CharAt(s, |front|) == if back == "" then '\r' else back[0];
    if back != "" && back[0] == ':' {
      assert s == (front + ":") + back[1..] + CRLF + rest;
      SkipStopsEarly(front + ":", back[1..], rest);
    } else {
      SkipStopsEarly(front, back, rest);
    }
  }

  /** Behind an empty first item the start lies on its newline, which is then read as data. */
  lemma MisreadBehindEmpty(pre: string, rest: string)
    requires rest != ""
    ensures ItemAt(pre + CRLF + rest, |pre| + 1).0 != ""
  {
    var s := pre + CRLF + rest;
    assert s[|pre| + 1] == '\n';
    assert Skip(s, |pre| + 1) == 1 + Skip(s, |pre| + 2);
  }

  lemma MisreadAt(s: string, pre: string, x: string, rest: string, h: nat, at: nat)
    requires s == pre + x + CRLF + rest && rest != "" && at == |pre| + h
    requires 0 < h && (h <= |x| || h == 1) && CharAt(x, h) != '$'
    ensures ItemAt(s, at).0 != x
  {
    if x == "" {
      assert s == pre + CRLF + rest;
      MisreadBehindEmpty(pre, rest);
    } else {
      MisreadInside(pre, x, rest, h);
    }
  }

  lemma MisreadShifted(items: seq<string>, pre: string, s: string, rest: string)
    requires items != [] && Shift(items) > 0 && StartsInFirst(items) && rest != ""
    requires |pre| == |Decimal(|items[0]|)| + 3 && s == pre + items[0] + CRLF + rest
    ensures ItemAt(s, |ArrayHeader(|items|)|).0 != items[0]
  {
    MisreadAt(s, pre, items[0], rest, Shift(items), |ArrayHeader(|items|)|);
  }

  lemma BodyNotEmpty(items: seq<string>)
    requires items != []
    ensures Body(items) != ""
  {
  }

  /**
   * FromString gives back the items of a message that ToString wrote if and only if the item count and the length of
   * the first item have equally many digits, and the first item has no CRLF and no ':' in front. (For all messages
   * with the start inside the first item and not on a '$'; those of fewer than a hundred items have it there.)
   */
  lemma FromStringExact(items: seq<string>)
    requires |items| > 1 && Fits(items) && StartsInFirst(items)
    ensures ReceivedItems(Text(items)) == Some(items) <==> HeaderAligned(items)
  {
    if HeaderAligned(items) {
      AlignedReceives(items);
    } else {
      ReceivedFromArray(items);
      MisalignedDiffers(items);
      FirstOfItems(Body(items), |ArrayHeader(|items|)|, |items|);
    }
  }

  lemma FirstOfItems(s: string, i: int, n: nat)
    requires n > 0
    ensures |ItemsAt(s, i, n).0| > 0 && ItemsAt(s, i, n).0[0] == ItemAt(s, i).0
  {
  }

  lemma MisalignedDiffers(items: seq<string>)
    requires |items| > 1 && Fits(items) && !HeaderAligned(items) && StartsInFirst(items)
    ensures ItemAt(Body(items), |ArrayHeader(|items|)|).0 != items[0]
  {
    if Shift(items) > 0 {
      BodyParts(items);
      BodyNotEmpty(items[1..]);
      MisreadShifted(items, "$" + Decimal(|items[0]|) + CRLF, Body(items), Body(items[1..]));
    } else if |Decimal(|items|)| < |Decimal(|items[0]|)| {
      MisreadHeader(items);
    } else {
      MisreadFirst(items, "$" + Decimal(|items[0]|) + CRLF);
    }
  }

  lemma MisreadFirst(items: seq<string>, pre: string)
    requires |items| > 1 && pre == "$" + Decimal(|items[0]|) + CRLF && |pre| == |ArrayHeader(|items|)|
    requires items[0] != "" && items[0][0] != '$'
    requires HasCrlf(items[0]) || items[0][0] == ':'
    ensures ItemAt(Body(items), |ArrayHeader(|items|)|).0 != items[0]
  {
    BodyParts(items);
    MisreadData(pre, items[0], Body(items[1..]));
  }

  /** With fewer than a hundred items the start lies at most one character into the first item. */
  lemma SmallMessages(items: seq<string>)
    requires 1 < |items| < 100
    ensures Shift(items) <= 1
    ensures StartsInFirst(items) <==> CharAt(items[0], Shift(items)) != '$'
    ensures Shift(items) == 1 <==> |items| >= 10 && |items[0]| < 10
  {
    DecimalLength(|items|);
    DecimalLength(|items| / 10);
    DecimalLength(|items[0]|);
  }

  lemma DollarBody()
    ensures Body(["$2", "ab"]) == ("$2" + CRLF) + Bulk("$2") + ("ab" + CRLF)
    ensures |"$2" + CRLF| == 4 == |ArrayHeader(2)| && |Bulk("$2")| == 8
  {
    assert Decimal(2) == "2";
    var items := ["$2", "ab"];
    assert items[1..] == ["ab"] && ["ab"][1..] == [];
    assert Body(["ab"]) == Bulk("ab") + "";
    assert Body(items) == Bulk("$2") + Bulk("ab");
    assert Bulk("$2") == ("$2" + CRLF) + ("$2" + CRLF) && Bulk("ab") == ("$2" + CRLF) + ("ab" + CRLF);
  }

  lemma TwoItems(s: string, n: nat, m: nat, end: nat, x: string, y: string)
    requires Reads(s, n, x, m) && Reads(s, m, y, end)
    ensures ItemsAt(s, n, 2).0 == [x, y]
  {
    RunEnds(s, n, [x, y], end, [n, m, end]);
  }

  lemma TwoSteps(s: string, pre: string, front: string, x: string, y: string)
    requires |x| < I32 && front == pre + Bulk(x) && s == front + (y + CRLF)
    requires !HasCrlf(y) && !(y != "" && y[0] in {'$', ':'})
    ensures ItemsAt(s, |pre|, 2).0 == [x, y]
  {
    FirstStep(pre, s, front, x, y + CRLF);
    SecondStep(front, s, y);
    TwoItems(s, |pre|, |front|, |front| + |y| + 2, x, y);
  }

  lemma FirstStep(pre: string, s: string, front: string, x: string, rest: string)
    requires |x| < I32 && front == pre + Bulk(x) && s == front + rest
    ensures Reads(s, |pre|, x, |front|)
  {
    BulkStep(pre, x, rest);
  }

  lemma SecondStep(before: string, s: string, y: string)
    requires s == before + (y + CRLF) && !HasCrlf(y) && !(y != "" && y[0] in {'$', ':'})
    ensures Reads(s, |before|, y, |before| + |y| + 2)
  {
    PlainStep(before, y, "");
    assert s == before + y + CRLF + "";
  }

  /** A leading '$' can read as a header of its own: this message arrives although it is not aligned. */
  lemma DollarCoincides()
    ensures ReceivedItems(Text(["$2", "ab"])) == Some(["$2", "ab"]) && !HeaderAligned(["$2", "ab"])
  {
    ReceivedFromArray(["$2", "ab"]);
    DollarBody();
    var pre := "$2" + CRLF;
    TwoSteps(pre + Bulk("$2") + ("ab" + CRLF), pre, pre + Bulk("$2"), "$2", "ab");
  }

  lemma {:induction false} StepsThenOne(step: int -> (string, int), i: int, n: nat)
    ensures Steps(step, i, n + 1).0 == Steps(step, i, n).0 + [step(Steps(step, i, n).1).0]
    decreases n
  {
    if n > 0 {
      var (x, next) := step(i);
      StepsThenOne(step, next, n - 1);
      var xs := Steps(step, next, n - 1).0;
      var y := step(Steps(step, next, n - 1).1).0;
      assert [x] + (xs + [y]) == ([x] + xs) + [y];
    }
  }

  function Empties(n: nat): (r: seq<string>)
    ensures |r| == n && forall k :: 0 <= k < n ==> r[k] == ""
  {
    seq(n, _ => "")
  }

  lemma HundredHeader()
    ensures |ArrayHeader(100)| == 6 == |Bulk("")|
    ensures |Decimal(100)| != |Decimal(0)|
  {
    assert Decimal(10) == "10" && Decimal(100) == "100" && Decimal(0) == "0";
  }

  lemma SkippedItem(n: nat, pre: string)
    requires n > 0 && pre == Bulk("")
    ensures Body(Empties(n)) == pre + Body(Empties(n - 1))
    ensures ItemsAt(Body(Empties(n)), |pre|, n).0 == Empties(n)
  {
    var s := Body(Empties(n));
    assert Empties(n)[0] == "" && Empties(n)[1..] == Empties(n - 1);
    assert s == pre + Body(Empties(n - 1));
    BodyRoundTrip(s, |pre|, Empties(n - 1));
    StepsThenOne(Reader(s), |pre|, n - 1);
    BehindTheText(s);
    assert Empties(n - 1) + [""] == Empties(n);
  }

  lemma BehindTheText(s: string)
    ensures ItemAt(s, |s|).0 == ""
  {
  }

  /** A longer count can skip a whole item: a hundred empty items arrive, the last one read behind the text. */
  lemma HundredEmptyItemsCoincide()
    ensures ReceivedItems(Text(Empties(100))) == Some(Empties(100)) && !HeaderAligned(Empties(100))
  {
    ReceivedFromArray(Empties(100));
    HundredHeader();
    SkippedItem(100, Bulk(""));
  }

  /** Messages that do not come back: two items, the first of ten characters or more. */
  lemma LongFirstItemIsLost(x: string, y: string)
    requires 10 <= |x| < I32 && x[0] != '$' && |y| < I32
    ensures ReceivedItems(Text([x, y])) != Some([x, y])
  {
    DecimalLength(2);
    DecimalLength(|x|);
    FromStringExact([x, y]);
  }

  /** And ten to ninety-nine items, the first of fewer than ten characters and without a '$' in second place. */
  lemma ManyItemsAreLost(items: seq<string>)
    requires 10 <= |items| < 100 && Fits(items) && |items[0]| < 10 && CharAt(items[0], 1) != '$'
    ensures ReceivedItems(Text(items)) != Some(items)
  {
    SmallMessages(items);
    FromStringExact(items);
  }

  /** A single item comes back if and only if it has no CRLF and does not start with a type marker. */
  lemma SingleItemExact(x: string)
    requires |x| < I32
    ensures ReceivedItems(Text([x])) == Some([x]) <==> !HasCrlf(x) && !(x != "" && x[0] in {'$', ':', '*'})
  {
    var s := Text([x]);
    assert s == "" + x + CRLF + "";
    if x == "" {
      PlainStep("", x, "");
    } else if x[0] == '*' {
      var cr := FindCr(s, 1);
      if cr.Some? {
        var i := cr.value + 2;
        var n := ToInteger(Substr(s, 1, cr.value - 1));
        ItemsAreShort(Substr(s, i, -1), i, if n < 0 then 0 else n);
      }
    } else if x[0] == '$' {
      assert |ItemAt(s, 0).0| < |x|;
    } else if x[0] == ':' || HasCrlf(x) {
      MisreadData("", x, "");
      assert ReceivedItems(s) == Some([ItemAt(s, 0).0]);
    } else {
      PlainStep("", x, "");
    }
  }

  /** No item is longer than the text it is read from. */
  lemma {:induction false} ItemsAreShort(s: string, i: int, n: nat)
    ensures forall x :: x in ItemsAt(s, i, n).0 ==> |x| <= |s|
    decreases n
  {
    if n > 0 {
      var (x, next) := ItemAt(s, i);
      ItemsAreShort(s, next, n - 1);
    }
  }

  /**
   * What a subscriber receives: channel and message arrive as they were published, because "message" has seven
   * characters and the reply three items, so that the two headers happen to have the same length.
   */
  lemma {:induction false} PublishedMessageArrives(channel: string, message: string)
    requires |channel| < I32 && |Escape(message)| < I32
    ensures ReceivedItems(Text(["message", channel, Escape(message)])) == Some(["message", channel, Escape(message)])
    ensures Unescape(Escape(message)) == message
  {
    var items := ["message", channel, Escape(message)];
    DecimalLength(3);
    DecimalLength(7);
    assert HeaderAligned(items);
    AlignedReceives(items);
    UnescapeEscape(message);
  }

  // ---------------------------------------------------------------------------------------------

  /** One turn of the loop of ToString. */
  lemma WriteOne(before: string, items: seq<string>, i: nat, after: string)
    requires i < |items|
    requires after == (before + "$" + Decimal(|items[i]|) + CRLF) + items[i] + CRLF
    ensures after + Body(items[i + 1..]) == before + Body(items[i..])
  {
    var x, d := items[i], Decimal(|items[i]|);
    assert items[i..][0] == x && items[i..][1..] == items[i + 1..];
    WrittenBulk(before, d, x, after);
    assert (before + Bulk(x)) + Body(items[i + 1..]) == before + (Bulk(x) + Body(items[i + 1..]));
  }

  lemma WrittenBulk(before: string, d: string, x: string, after: string)
    requires after == (before + "$" + d + CRLF) + x + CRLF
    ensures after == before + ("$" + d + CRLF + x + CRLF)
  {
  }

  lemma WriteLast(result: string, items: seq<string>)
    ensures result + Body(items[|items|..]) == result
  {
  }

  /** How FromString ends: normally, with an index outside a text or array, or not at all. */
  datatype Outcome = Done | OutOfRange | NeverReturns

  /** The items are those of a reply to a subscriber. */
  predicate Published(items: seq<string>) { |items| > 1 && items[0] == "message" }

  /** Without items there is no first one, without a payload no third one, and a long payload is never unescaped. */
  function OutcomeOf(items: seq<string>): Outcome {
    if items == [] || (Published(items) && |items| == 2) then OutOfRange
    else if Published(items) && |items[2]| >= U16 then NeverReturns
    else Done
  }

  function MessageOf(items: seq<string>, before: string): string {
    if OutcomeOf(items) != Done then before
    else if Published(items) then Unescape(items[2])
    else if |items| == 1 then items[0]
    else before
  }

  class RedisMessage {
    var wholeMessage: string
    var channel: string
    var command: string
    var message: string
    var items: seq<string>

    constructor ()
      ensures items == [] && wholeMessage == "" && channel == "" && command == "" && message == ""
    {
      wholeMessage, channel, command, message, items := "", "", "", "", [];
    }

    method PushItem(value: string)
      modifies this`items
      ensures items == old(items) + [value]
    {
      items := items + [value];
    }

    method ToString() returns (result: string)
      ensures result == Text(items)
    {
      result := "";
      if |items| > 1 {
        result := result + "*" + Decimal(|items|) + CRLF;
        var i := 0;
        ghost var all := ArrayHeader(|items|) + Body(items);
        assert items[0..] == items;
        while i < |items|
          invariant 0 <= i <= |items|
          invariant result + Body(items[i..]) == all
        {
          ghost var before := result;
          var x := items[i];
          result := result + "$" + Decimal(|x|) + CRLF;
          result := result + x + CRLF;
          WriteOne(before, items, i, result);
          i := i + 1;
        }
        WriteLast(result, items);
      } else if |items| == 1 {
        result := result + items[0] + CRLF;
      } else {
        result := EMPTY_NOTICE;
      }
    }

    method SkipTillNewline(value: string, start: int) returns (n: int)
      ensures n == Skip(value, start)
    {
      var i := start;
      while i < |value|
        invariant start <= i
        invariant Skip(value, start) == i - start + Skip(value, i)
        decreases |value| - i
      {
        var char1 := CharAt(value, i);
        var char2 := CharAt(value, i + 1);
        if char1 == '\r' && char2 == '\n' {
          break;
        }
        i := i + 1;
      }
      return i - start;
    }

    method ParseItem(rest: string, i0: int) returns (i: int)
      modifies this`items
      ensures items == old(items) + [ItemAt(rest, i0).0]
      ensures i == ItemAt(rest, i0).1
    {
      i := i0;
      var c := CharAt(rest, i);
      if c == '$' {
        i := i + 1;
        var skip := SkipTillNewline(rest, i);
        var length := ToInteger(Substr(rest, i, skip));
        i := i + skip + 2;
        var data := Substr(rest, i, length);
        i := i + length + 2;
        PushItem(data);
      } else if c == ':' {
        i := i + 1;
        var skip := SkipTillNewline(rest, i);
        PushItem(Substr(rest, i, skip));
        i := i + skip + 2;
      } else {
        var length := SkipTillNewline(rest, i);
        PushItem(Substr(rest, i, length));
        i := i + length + 2;
      }
    }

    method FromString(text: string) returns (outcome: Outcome)
      modifies this
      ensures wholeMessage == text
      ensures ReceivedItems(text).None? ==>
        && outcome == OutOfRange && items == old(items)
        && command == old(command) && channel == old(channel) && message == old(message)
      ensures ReceivedItems(text).Some? ==>
        && items == old(items) + ReceivedItems(text).value && outcome == OutcomeOf(items)
        && command == (if Published(items) then items[0] else old(command))
        && channel == (if Published(items) then items[1] else old(channel))
        && message == MessageOf(items, old(message))
    {
      wholeMessage := text;
      if text == "" {
        return OutOfRange;
      }
      if text[0] == '*' {
        var i := 1;
        while i < |text| && text[i] != '\r'
          invariant 1 <= i <= |text|
          invariant FindCr(text, 1) == FindCr(text, i)
        {
          i := i + 1;
        }
        if i == |text| {
          return OutOfRange;
        }
        var numItems := ToInteger(Substr(text, 1, i - 1));
        i := i + 2;
        var rest := Substr(text, i, -1);
        ParseItems(rest, i, numItems);
      } else {
        var _ := ParseItem(text, 0);
      }
      outcome := ReadFields();
    }

    /** The end of FromString: which fields the items go to. */
    method ReadFields() returns (outcome: Outcome)
      modifies this`command, this`channel, this`message
      ensures outcome == OutcomeOf(items)
      ensures command == if Published(items) then items[0] else old(command)
      ensures channel == if Published(items) then items[1] else old(channel)
      ensures message == MessageOf(items, old(message))
    {
      if |items| > 1 {
        if items[0] == "message" {
          command := items[0];
          channel := items[1];
          if |items| == 2 {
            return OutOfRange;
          }
          if |items[2]| >= U16 {
            return NeverReturns;
          }
          message := UnescapeString(items[2]);
        }
      } else if items == [] {
        return OutOfRange;
      } else {
        message := items[0];
      }
      return Done;
    }

    /** The item loop of FromString. */
    method ParseItems(rest: string, i0: int, numItems: int)
      modifies this`items
      ensures items == old(items) + ItemsAt(rest, i0, if numItems < 0 then 0 else numItems).0
    {
      var i := i0;
      var item := 0;
      ghost var n := if numItems < 0 then 0 else numItems;
      ghost var all := items + ItemsAt(rest, i0, n).0;
      while item < numItems
        invariant 0 <= item <= n
        invariant items + ItemsAt(rest, i, n - item).0 == all
      {
        ItemsUnroll(rest, i, n - item, items, ItemAt(rest, i));
        i := ParseItem(rest, i);
        item := item + 1;
      }
      NoItemsLeft(rest, i, items);
    }
  }
}
