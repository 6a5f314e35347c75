/** What a client receives: bulk strings and integers in one array, and the fields they end up in (Redis.struct.h). */
module RedisReplies {
  import opened Common
  import opened Escaping
  import opened RedisMessages
  import opened RedisText

  /** An element of an array reply. */
  datatype Reply = Data(data: string) | Number(n: int)

  function Integer(n: int): string {
    if n < 0 then "-" + Decimal(-n) else Decimal(n)
  }

  function Shown(r: Reply): string {
    match r
    case Data(x) => x
    case Number(n) => Integer(n)
  }

  /** The element in the RESP format. */
  function Wire(r: Reply): string {
    match r
    case Data(x) => "$" + Decimal(|x|) + "\r\n" + x + "\r\n"
    case Number(n) => ":" + Integer(n) + "\r\n"
  }

  function WireBody(rs: seq<Reply>): string {
    if rs == [] then "" else Wire(rs[0]) + WireBody(rs[1..])
  }

  function ShownAll(rs: seq<Reply>): (items: seq<string>)
    ensures |items| == |rs|
    ensures forall k :: 0 <= k < |rs| ==> items[k] == Shown(rs[k])
  {
    if rs == [] then [] else [Shown(rs[0])] + ShownAll(rs[1..])
  }

  predicate Sendable(rs: seq<Reply>) {
    |rs| < I32 && forall r :: r in rs && r.Data? ==> |r.data| < I32
  }

  lemma IntegerHasNoCrlf(n: int)
    ensures !HasCrlf(Integer(n)) && Integer(n) != ""
  {
    var d := Integer(n);
    assert forall k :: 0 <= k < |d| ==> IsDigit(d[k]) || d[k] == '-';
  }

  /** An integer is read from behind its ':' up to its newline, sign included. */
  lemma NumberStep(pre: string, n: int, rest: string)
    ensures ItemAt(pre + (":" + Integer(n) + "\r\n") + rest, |pre|) == (Integer(n), |pre| + |Integer(n)| + 3)
  {
    IntegerHasNoCrlf(n);
    ReadsLine(pre, Integer(n), rest, pre + (":" + Integer(n) + "\r\n") + rest);
  }

  lemma ReadsLine(pre: string, d: string, rest: string, s: string)
    requires !HasCrlf(d) && s == pre + (":" + d + CRLF) + rest
    ensures ItemAt(s, |pre|) == (d, |pre| + |d| + 3)
  {
    assert s == (pre + ":") + d + CRLF + rest;
    SkipFinds(pre + ":", d, rest);
    assert s[|pre| + 1..|pre| + 1 + |d|] == d;
    SubstrIs(s, |pre| + 1, d);
    assert CharAt(s, |pre|) == ':';
  }

  lemma WireStep(pre: string, r: Reply, rest: string)
    requires r.Data? ==> |r.data| < I32
    ensures ItemAt(pre + Wire(r) + rest, |pre|) == (Shown(r), |pre| + |Wire(r)|)
  {
    match r
    case Data(x) => BulkStep(pre, x, rest);
    case Number(n) => NumberStep(pre, n, rest);
  }

  lemma Regroup(a: string, b: string, c: string)
    ensures a + (b + c) == (a + b) + c
  {
  }

  lemma {:induction false} WireSplit(s: string, pre: string, rs: seq<Reply>, next: string, rest: string)
    requires rs != [] && s == pre + WireBody(rs) && next == pre + Wire(rs[0]) && rest == WireBody(rs[1..])
    ensures s == next + rest
  {
    Regroup(pre, Wire(rs[0]), rest);
  }

  lemma ReadsIs(s: string, t: string, i: nat, x: string, next: nat)
    requires s == t && ItemAt(t, i) == (x, next)
    ensures Reads(s, i, x, next)
  {
  }

  lemma FirstReply(s: string, pre: string, r: Reply, next: string, rest: string)
    requires r.Data? ==> |r.data| < I32
    requires next == pre + Wire(r) && s == next + rest
    ensures Reads(s, |pre|, Shown(r), |next|)
  {
    WireStep(pre, r, rest);
    ReadsIs(s, pre + Wire(r) + rest, |pre|, Shown(r), |next|);
  }

  lemma {:induction false} FirstAndRest(s: string, i: nat, x: string, next: nat, n: nat, xs: seq<string>)
    requires Reads(s, i, x, next) && ItemsAt(s, next, n).0 == xs
    ensures ItemsAt(s, i, n + 1).0 == [x] + xs
  {
    ItemsUnroll(s, i, n + 1, [], (x, next));
  }

  /** Reading from the first element on gives every element, whatever their kinds. */
  lemma {:induction false} RepliesAreRead(s: string, pre: string, rs: seq<Reply>)
    requires s == pre + WireBody(rs) && Sendable(rs)
    ensures ItemsAt(s, |pre|, |rs|).0 == ShownAll(rs)
    decreases |rs|
  {
    if rs != [] {
      var next, rest := pre + Wire(rs[0]), WireBody(rs[1..]);
      WireSplit(s, pre, rs, next, rest);
      FirstReply(s, pre, rs[0], next, rest);
      RepliesAreRead(s, next, rs[1..]);
      FirstAndRest(s, |pre|, Shown(rs[0]), |next|, |rs[1..]|, ShownAll(rs[1..]));
    }
  }

  lemma CountLine(n: nat, body: string, message: string)
    requires message == ArrayHeader(n) + body && body != ""
    ensures message[0] == '*' && Substr(message, 1, |Decimal(n)|) == Decimal(n)
    ensures Substr(message, |Decimal(n)| + 3, -1) == body
  {
    assert message[1..1 + |Decimal(n)|] == Decimal(n);
    assert message[|ArrayHeader(n)|..] == body;
  }

  /** On an array reply FromString starts as far into the elements as the count line is long. */
  lemma {:induction false} ArrayReceived(n: nat, body: string)
    requires n < I32 && body != ""
    ensures ReceivedItems("*" + Decimal(n) + "\r\n" + body) == Some(ItemsAt(body, |Decimal(n)| + 3, n).0)
  {
    var message := ArrayHeader(n) + body;
    FindCrAfterDigits(n, body, 1);
    CountLine(n, body, message);
    DecimalRoundTrip(n);
  }

  /** The first element is text that cannot be taken for something else, its header as long as the count line. */
  ghost predicate StartsAligned(rs: seq<Reply>) {
    && rs != [] && rs[0].Data?
    && |Decimal(|rs|)| == |Decimal(|rs[0].data|)|
    && !HasCrlf(rs[0].data)
    && !(rs[0].data != "" && rs[0].data[0] in {'$', ':'})
  }

  lemma PlainReads(header: string, x: string, next: string, rest: string, body: string)
    requires next == header + x + CRLF && body == next + rest
    requires !HasCrlf(x) && !(x != "" && x[0] in {'$', ':'})
    ensures Reads(body, |header|, x, |next|)
  {
    PlainStep(header, x, rest);
  }

  lemma {:induction false} FirstData(rs: seq<Reply>, header: string, next: string, rest: string, body: string)
    requires StartsAligned(rs) && body == WireBody(rs) && rest == WireBody(rs[1..])
    requires header == "$" + Decimal(|rs[0].data|) + CRLF && next == header + rs[0].data + CRLF
    ensures body == next + rest && Reads(body, |header|, rs[0].data, |next|)
  {
    assert next == Wire(rs[0]);
    PlainReads(header, rs[0].data, next, rest, body);
  }

  /** Such replies are received element by element. */
  lemma {:induction false} RepliesArrive(rs: seq<Reply>)
    requires Sendable(rs) && StartsAligned(rs)
    ensures ReceivedItems("*" + Decimal(|rs|) + "\r\n" + WireBody(rs)) == Some(ShownAll(rs))
  {
    var x, body, rest := rs[0].data, WireBody(rs), WireBody(rs[1..]);
    ArrayReceived(|rs|, body);
    var header := "$" + Decimal(|x|) + CRLF;
    var next := header + x + CRLF;
    FirstData(rs, header, next, rest, body);
    RepliesAreRead(body, next, rs[1..]);
    FirstAndRest(body, |header|, x, |next|, |rs[1..]|, ShownAll(rs[1..]));
  }

  /** The confirmation of a subscription, with any channel and any number of subscriptions. */
  function Confirmation(channel: string, n: int): string {
    "*3\r\n$9\r\nsubscribe\r\n"
    + ("$" + Decimal(|channel|) + "\r\n" + channel + "\r\n")
    + (":" + Integer(n) + "\r\n")
  }

  /** The push of a message on a channel, with the payload escaped as the publisher does it. */
  function Push(channel: string, payload: string): string {
    "*3\r\n$7\r\nmessage\r\n"
    + ("$" + Decimal(|channel|) + "\r\n" + channel + "\r\n")
    + ("$" + Decimal(|payload|) + "\r\n" + payload + "\r\n")
  }

  lemma {:induction false} WireCons(r: Reply, rs: seq<Reply>)
    ensures WireBody([r] + rs) == Wire(r) + WireBody(rs) && ShownAll([r] + rs) == [Shown(r)] + ShownAll(rs)
  {
    assert ([r] + rs)[1..] == rs;
  }

  lemma {:induction false} ThreeOnTheWire(a: Reply, b: Reply, c: Reply)
    ensures WireBody([a, b, c]) == Wire(a) + Wire(b) + Wire(c)
    ensures ShownAll([a, b, c]) == [Shown(a), Shown(b), Shown(c)]
  {
    WireCons(c, []);
    WireCons(b, [c]);
    WireCons(a, [b, c]);
    assert [c] == [c] + [] && [b, c] == [b] + [c] && [a, b, c] == [a] + [b, c];
    Regroup(Wire(a), Wire(b), Wire(c));
  }

  lemma SubscribeHead()
    ensures "*3\r\n$9\r\nsubscribe\r\n" == ("*" + "3" + "\r\n") + ("$" + "9" + "\r\n" + "subscribe" + "\r\n")
    ensures Decimal(3) == "3" && Decimal(9) == "9" && !HasCrlf("subscribe")
  {
  }

  lemma MessageHead()
    ensures "*3\r\n$7\r\nmessage\r\n" == ("*" + "3" + "\r\n") + ("$" + "7" + "\r\n" + "message" + "\r\n")
    ensures Decimal(3) == "3" && Decimal(7) == "7" && !HasCrlf("message")
  {
  }

  lemma Regroup4(h: string, a: string, b: string, c: string)
    ensures ((h + a) + b) + c == h + ((a + b) + c)
  {
  }

  /** Three elements behind their count, the first of them text of as many digits. */
  lemma {:induction false} ThreeArrive(text: string, h: string, a: Reply, b: Reply, c: Reply, d: string)
    requires Sendable([a, b, c]) && StartsAligned([a, b, c])
    requires h == "*" + Decimal(3) + "\r\n" && d == h + Wire(a) && text == d + Wire(b) + Wire(c)
    ensures ReceivedItems(text) == Some([Shown(a), Shown(b), Shown(c)])
  {
    ThreeOnTheWire(a, b, c);
    RepliesArrive([a, b, c]);
    Regroup4(h, Wire(a), Wire(b), Wire(c));
  }

  lemma {:induction false} ConfirmationArrives(channel: string, n: int)
    requires |channel| < I32
    ensures ReceivedItems(Confirmation(channel, n)) == Some(["subscribe", channel, Integer(n)])
  {
    SubscribeHead();
    ThreeArrive(Confirmation(channel, n), "*" + Decimal(3) + "\r\n", Data("subscribe"), Data(channel), Number(n),
      "*3\r\n$9\r\nsubscribe\r\n");
  }

  lemma {:induction false} PushArrives(channel: string, payload: string)
    requires |channel| < I32 && |payload| < I32
    ensures ReceivedItems(Push(channel, payload)) == Some(["message", channel, payload])
  {
    MessageHead();
    ThreeArrive(Push(channel, payload), "*" + Decimal(3) + "\r\n", Data("message"), Data(channel), Data(payload),
      "*3\r\n$7\r\nmessage\r\n");
  }

  lemma NullLine(pre: string, rest: string, s: string)
    requires s == pre + "$-1\r\n" + rest
    ensures CharAt(s, |pre|) == '$' && Skip(s, |pre| + 1) == 2 && Substr(s, |pre| + 1, 2) == "-1"
    ensures Substr(s, |pre| + 5, -1) == rest
  {
    assert s == (pre + "$") + "-1" + CRLF + rest;
    SkipFinds(pre + "$", "-1", rest);
    assert s[|pre| + 1..|pre| + 3] == "-1";
    assert s[|pre| + 5..] == rest;
  }

  /** A null bulk string is read as all that follows it, and the next step starts one character further on. */
  lemma NullStep(pre: string, rest: string)
    ensures ItemAt(pre + "$-1\r\n" + rest, |pre|) == (rest, |pre| + 6)
  {
    NullLine(pre, rest, pre + "$-1\r\n" + rest);
    assert "-1"[1..] == "1" && LeadingNumber("1", 0) == 1;
  }

  lemma LiteralParts()
    ensures "$" + "3" + CRLF + "GET" + CRLF == "$3\r\nGET\r\n"
    ensures "$" + "12" + CRLF + "hello, world" + CRLF == "$12\r\nhello, world\r\n"
  {
  }

  lemma LiteralText()
    ensures ("*" + "2" + CRLF) + ("$3\r\nGET\r\n" + "$12\r\nhello, world\r\n")
      == "*2\r\n$3\r\nGET\r\n$12\r\nhello, world\r\n"
  {
  }

  lemma {:induction false} TwoBulks(x: string, y: string)
    ensures Body([x, y]) == Bulk(x) + Bulk(y)
  {
    assert [x, y][1..] == [y] && [y][1..] == [];
    assert Body([y]) == Bulk(y) + "";
  }

  /** What a client sends to read the value of a key. */
  lemma {:induction false} GetCommand()
    ensures Text(["GET", "hello, world"]) == "*2\r\n$3\r\nGET\r\n$12\r\nhello, world\r\n"
  {
    assert Decimal(2) == "2" && Decimal(3) == "3" && Decimal(1) == "1" && Decimal(12) == "12";
    LiteralParts();
    LiteralText();
    TwoBulks("GET", "hello, world");
  }

  /** A new client reads the confirmation of its subscription: three items, and no message. */
  method ReadConfirmation(channel: string, n: int) returns (m: RedisMessage, outcome: Outcome)
    requires |channel| < I32
    ensures fresh(m) && outcome == Done
    ensures m.items == ["subscribe", channel, Integer(n)]
    ensures m.command == "" && m.channel == "" && m.message == ""
  {
    m := new RedisMessage();
    outcome := m.FromString(Confirmation(channel, n));
    ConfirmationArrives(channel, n);
  }

  /** A new client reads what was published: channel and text, unless the escaped text is too long to be unescaped. */
  method ReadPush(channel: string, text: string) returns (m: RedisMessage, outcome: Outcome)
    requires |channel| < I32 && |Escape(text)| < I32
    ensures fresh(m) && m.items == ["message", channel, Escape(text)]
    ensures m.command == "message" && m.channel == channel
    ensures outcome == (if |Escape(text)| < 65536 then Done else NeverReturns)
    ensures outcome == Done ==> m.message == text
  {
    m := new RedisMessage();
    outcome := m.FromString(Push(channel, Escape(text)));
    PushArrives(channel, Escape(text));
    UnescapeEscape(text);
  }

  lemma {:induction false} TwoOnTheWire(a: Reply, b: Reply)
    ensures WireBody([a, b]) == Wire(a) + Wire(b) && ShownAll([a, b]) == [Shown(a), Shown(b)]
  {
    WireCons(b, []);
    WireCons(a, [b]);
    assert [b] == [b] + [] && [a, b] == [a] + [b];
  }

  lemma TwoHead()
    ensures "*2\r\n$7\r\nmessage\r\n" == ("*" + "2" + "\r\n") + ("$" + "7" + "\r\n" + "message" + "\r\n")
    ensures Decimal(2) == "2" && Decimal(7) == "7" && !HasCrlf("message")
  {
  }

  /** Two elements behind their count, the first of them text of as many digits. */
  lemma {:induction false} PairArrives(text: string, h: string, a: Reply, b: Reply, d: string)
    requires Sendable([a, b]) && StartsAligned([a, b])
    requires h == "*" + Decimal(2) + "\r\n" && d == h + Wire(a) && text == d + Wire(b)
    ensures ReceivedItems(text) == Some([Shown(a), Shown(b)])
  {
    TwoOnTheWire(a, b);
    RepliesArrive([a, b]);
    Regroup(h, Wire(a), Wire(b));
  }

  lemma {:induction false} TwoArrive(channel: string)
    requires |channel| < I32
    ensures ReceivedItems("*2\r\n$7\r\nmessage\r\n" + Wire(Data(channel))) == Some(["message", channel])
  {
    TwoHead();
    var d := "*2\r\n$7\r\nmessage\r\n";
    PairArrives(d + Wire(Data(channel)), "*" + Decimal(2) + "\r\n", Data("message"), Data(channel), d);
  }

  /** A push without its payload ends outside the items, after the channel was set. */
  method ReadPushWithoutPayload(channel: string) returns (m: RedisMessage, outcome: Outcome)
    requires |channel| < I32
    ensures fresh(m) && outcome == OutOfRange
    ensures m.items == ["message", channel] && m.command == "message" && m.channel == channel && m.message == ""
  {
    m := new RedisMessage();
    outcome := m.FromString("*2\r\n$7\r\nmessage\r\n" + Wire(Data(channel)));
    TwoArrive(channel);
  }

  lemma {:induction false} NoCount()
    ensures ReceivedItems("") == None && ReceivedItems("*3") == None
  {
    assert FindCr("*3", 1) == FindCr("*3", 2) == None;
  }

  lemma CountOfNothing(text: string, cr: nat, count: string)
    requires |text| == cr + 2 && text[0] == '*' && FindCr(text, 1) == Some(cr) && Substr(text, 1, cr - 1) == count
    requires ToInteger(count) <= 0
    ensures ReceivedItems(text) == Some([])
  {
  }

  lemma {:induction false} EmptyArray()
    ensures ReceivedItems("*0\r\n") == Some([])
  {
    var text := "*0\r\n";
    assert FindCr(text, 1) == FindCr(text, 2) == Some(2);
    assert text[1..2] == "0" && Decimal(0) == "0";
    DecimalRoundTrip(0);
    CountOfNothing(text, 2, "0");
  }

  lemma {:induction false} NullArray()
    ensures ReceivedItems("*-1\r\n") == Some([])
  {
    var text := "*-1\r\n";
    assert FindCr(text, 1) == FindCr(text, 2) == FindCr(text, 3) == Some(3);
    assert text[1..3] == "-1" && "-1"[1..] == "1" && LeadingNumber("1", 0) == 1;
    CountOfNothing(text, 3, "-1");
  }

  /** Nothing, a count that breaks off, an empty array and a null array all end outside the text or the items. */
  method ReadNothing(text: string) returns (m: RedisMessage, outcome: Outcome)
    requires text in {"", "*3", "*0\r\n", "*-1\r\n"}
    ensures fresh(m) && outcome == OutOfRange && m.items == [] && m.message == ""
  {
    NoCount(); EmptyArray(); NullArray();
    m := new RedisMessage();
    outcome := m.FromString(text);
  }

  lemma Alone(w: string)
    ensures "" + w + "" == w
  {
  }

  lemma {:induction false} OneArrives(r: Reply)
    requires r.Data? ==> |r.data| < I32
    ensures ReceivedItems(Wire(r)) == Some([Shown(r)])
  {
    WireStep("", r, "");
    Alone(Wire(r));
    assert Wire(r)[0] in {'$', ':'};
  }

  /** A new client reads a reply of one element: the element is the message. */
  method ReadOne(r: Reply) returns (m: RedisMessage, outcome: Outcome)
    requires r.Data? ==> |r.data| < I32
    ensures fresh(m) && outcome == Done
    ensures m.items == [Shown(r)] && m.message == Shown(r) && m.command == "" && m.channel == ""
  {
    m := new RedisMessage();
    outcome := m.FromString(Wire(r));
    OneArrives(r);
  }
}
