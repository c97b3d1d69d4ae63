/**
 * HttpResponse: a response edited in place by handlers, printed by Serialize, and read back by an
 * independent line parser. The class keeps one invariant, WellFormed, whatever strings its callers
 * pass; from it follows that what the peer reads is exactly what the response says.
 */
module HttpMessage {

  import opened Strings
  import opened Wrappers

  datatype Header = Header(name: string, value: string)

  datatype Response = Response(code: int, text: string, headers: seq<Header>, body: string, suppress: bool)

  const CRLF: string := "\r\n"

  // ─── What may stand in a line ──────────────────────────────────────────────

  predicate Control(c: char) {
    c as int == 0x7f || (c as int < 0x20 && c != '\t')
  }

  /** A value that ends no line: no control character but the tab. */
  predicate SafeText(s: string) {
    forall i :: 0 <= i < |s| ==> !Control(s[i])
  }

  predicate NameChar(c: char) {
    0x20 < c as int < 0x7f && c != ':'
  }

  predicate Token(s: string) {
    s != "" && forall i :: 0 <= i < |s| ==> NameChar(s[i])
  }

  ghost predicate WellFormed(r: Response) {
    && SafeText(r.text)
    && forall i :: 0 <= i < |r.headers| ==> Token(r.headers[i].name) && SafeText(r.headers[i].value)
  }

  /** The longest prefix without a control character. */
  function SafePrefix(s: string): (p: string)
    ensures SafeText(p) && p <= s
    ensures |p| < |s| ==> Control(s[|p|])
  {
    if s == "" || Control(s[0]) then "" else [s[0]] + SafePrefix(s[1..])
  }

  lemma {:induction false} SafePrefixAt(s: string, i: nat)
    requires i <= |s| && SafeText(s[..i]) && (i < |s| ==> Control(s[i]))
    ensures SafePrefix(s) == s[..i]
  {
    if i > 0 {
      assert s[..i][0] == s[0];
      assert s[1..][..i-1] == s[..i][1..];
      SafePrefixAt(s[1..], i - 1);
      assert s[..i] == [s[0]] + s[1..][..i-1];
    }
  }

  method HeaderSafe(value: string) returns (r: string)
    ensures r == SafePrefix(value)
  {
    r := value;
    var i := 0;
    while i < |value|
      invariant 0 <= i <= |value| && SafeText(value[..i]) && r == value
    {
      if Control(value[i]) {
        SafePrefixAt(value, i);
        return value[..i];
      }
      i := i + 1;
    }
    assert value[..i] == value;
    SafePrefixAt(value, i);
  }

  method HeaderNameOk(name: string) returns (ok: bool)
    ensures ok == Token(name)
  {
    if name == "" { return false; }
    for i := 0 to |name|
      invariant forall j :: 0 <= j < i ==> NameChar(name[j])
    {
      if !NameChar(name[i]) { return false; }
    }
    return true;
  }

  // ─── Edits, as functions of the header list ────────────────────────────────

  /** Replaces the first header of that name, or appends one. */
  function Replaced(hs: seq<Header>, name: string, value: string): (r: seq<Header>)
  {
    if hs == [] then [Header(name, value)]
    else if hs[0].name == name then [Header(name, value)] + hs[1..]
    else [hs[0]] + Replaced(hs[1..], name, value)
  }

  function Without(hs: seq<Header>, name: string): (r: seq<Header>) {
    if hs == [] then []
    else (if hs[|hs|-1].name == name then Without(hs[..|hs|-1], name) else Without(hs[..|hs|-1], name) + [hs[|hs|-1]])
  }

  function Set(r: Response, name: string, value: string): Response {
    if Token(name) then r.(headers := Replaced(r.headers, name, SafePrefix(value))) else r
  }

  function SetClose(r: Response): Response {
    Set(r, "Connection", "close")
  }

  lemma {:induction false} ReplacedAt(hs: seq<Header>, name: string, value: string, i: nat)
    requires i < |hs| && hs[i].name == name && forall j :: 0 <= j < i ==> hs[j].name != name
    ensures Replaced(hs, name, value) == hs[i := Header(name, value)]
  {
    if i > 0 {
      ReplacedAt(hs[1..], name, value, i - 1);
    }
  }

  lemma {:induction false} ReplacedAbsent(hs: seq<Header>, name: string, value: string)
    requires forall j :: 0 <= j < |hs| ==> hs[j].name != name
    ensures Replaced(hs, name, value) == hs + [Header(name, value)]
  {
    if hs != [] {
      ReplacedAbsent(hs[1..], name, value);
      assert hs == [hs[0]] + hs[1..];
    }
  }

  /** After a replacement the list holds the new header, and every other header is an old one. */
  lemma {:induction false} ReplacedHeaders(hs: seq<Header>, name: string, value: string)
    ensures Header(name, value) in Replaced(hs, name, value)
    ensures forall h :: h in Replaced(hs, name, value) ==> h in hs || h == Header(name, value)
  {
    if hs != [] {
      ReplacedHeaders(hs[1..], name, value);
    }
  }

  /** Deleting a name keeps exactly the headers of the other names. */
  lemma {:induction false} WithoutHeaders(hs: seq<Header>, name: string)
    ensures forall h :: h in Without(hs, name) <==> h in hs && h.name != name
  {
    if hs != [] {
      WithoutHeaders(hs[..|hs|-1], name);
      assert hs == hs[..|hs|-1] + [hs[|hs|-1]];
    }
  }

  lemma SetKeepsWellFormed(r: Response, name: string, value: string)
    requires WellFormed(r)
    ensures WellFormed(Set(r, name, value))
  {
    var hs := Replaced(r.headers, name, SafePrefix(value));
    ReplacedHeaders(r.headers, name, SafePrefix(value));
    forall i | 0 <= i < |hs| && Token(name)
      ensures Token(hs[i].name) && SafeText(hs[i].value)
    {
      assert hs[i] in hs;
    }
  }

  // ─── "Connection: close" ───────────────────────────────────────────────────

  predicate SaysClose(r: Response) {
    exists i :: 0 <= i < |r.headers| && Lower(r.headers[i].name) == "connection" && Lower(r.headers[i].value) == "close"
  }

  lemma LowerNames()
    ensures Lower("Connection") == "connection" && Lower("close") == "close"
  {
  }

  lemma SetCloseHeaders(r: Response)
    ensures SetClose(r) == r.(headers := Replaced(r.headers, "Connection", "close"))
  {
    SafePrefixAt("close", 5);
    assert "close"[..5] == "close";
  }

  lemma SetCloseSaysClose(r: Response)
    ensures SaysClose(SetClose(r))
  {
    SetCloseHeaders(r);
    LowerNames();
    ReplacedHeaders(r.headers, "Connection", "close");
    var hs := SetClose(r).headers;
    var i :| 0 <= i < |hs| && hs[i] == Header("Connection", "close");
  }

  // ─── Printing ──────────────────────────────────────────────────────────────

  function Digit(d: nat): char
    requires d < 10
  {
    ('0' as int + d) as char
  }

  function Decimal(n: int): (s: string)
    decreases if n < 0 then 1 - n else n
  {
    if n < 0 then "-" + Decimal(-n)
    else if n < 10 then [Digit(n)]
    else Decimal(n / 10) + [Digit(n % 10)]
  }

  predicate OwnLength(r: Response) {
    r.suppress && exists i :: 0 <= i < |r.headers| && Lower(r.headers[i].name) == "content-length"
  }

  /** The headers on the wire: the response's own, then the computed length unless it names one. */
  function SentHeaders(r: Response): seq<Header> {
    if OwnLength(r) then r.headers else r.headers + [Header("Content-Length", Decimal(|r.body|))]
  }

  function SentBody(r: Response): string {
    if r.suppress then "" else r.body
  }

  function HeaderLine(h: Header): string {
    h.name + ": " + h.value + CRLF
  }

  function HeaderLines(hs: seq<Header>): string {
    if hs == [] then "" else HeaderLine(hs[0]) + HeaderLines(hs[1..])
  }

  function StatusLine(r: Response): string {
    "HTTP/1.1 " + Decimal(r.code) + " " + r.text
  }

  function Serialized(r: Response): string {
    StatusLine(r) + CRLF + (HeaderLines(SentHeaders(r)) + (CRLF + SentBody(r)))
  }

  lemma {:induction false} HeaderLinesAppend(a: seq<Header>, b: seq<Header>)
    ensures HeaderLines(a + b) == HeaderLines(a) + HeaderLines(b)
  {
    if a == [] {
      assert a + b == b;
    } else {
      assert (a + b)[1..] == a[1..] + b;
      HeaderLinesAppend(a[1..], b);
    }
  }

  lemma AppendLength(hs: seq<Header>, n: nat)
    ensures HeaderLines(hs + [Header("Content-Length", Decimal(n))])
         == HeaderLines(hs) + ("Content-Length: " + Decimal(n) + "\r\n")
  {
    var length := Header("Content-Length", Decimal(n));
    HeaderLinesAppend(hs, [length]);
    assert HeaderLines([length]) == HeaderLine(length);
  }

  // ─── Reading back: an independent parser ───────────────────────────────────

  datatype Message = Message(code: string, text: string, headers: seq<Header>, body: string)

  function IndexOf(s: string, c: char): (i: nat)
    ensures i <= |s|
  {
    if s == "" || s[0] == c then 0 else 1 + IndexOf(s[1..], c)
  }

  /** The text up to the first CRLF, and what follows it. */
  function TakeLine(s: string): (r: Option<(string, string)>)
    ensures r.Some? ==> |r.value.1| < |s|
  {
    if |s| < 2 then None
    else if s[0] == '\r' && s[1] == '\n' then Some(("", s[2..]))
    else match TakeLine(s[1..])
      case None => None
      case Some((line, rest)) => Some(([s[0]] + line, rest))
  }

  function ReadHeader(line: string): Option<Header> {
    var i := IndexOf(line, ':');
    if i + 1 < |line| && line[i+1] == ' ' then Some(Header(line[..i], line[i+2..])) else None
  }

  /** Header lines up to the empty line, and what follows it. */
  function ReadHeaders(s: string): Option<(seq<Header>, string)>
    decreases |s|
  {
    match TakeLine(s)
    case None => None
    case Some((line, rest)) =>
      if line == "" then Some(([], rest))
      else match (ReadHeader(line), ReadHeaders(rest))
        case (Some(h), Some((hs, body))) => Some(([h] + hs, body))
        case _ => None
  }

  function ReadMessage(s: string): Option<Message> {
    match TakeLine(s)
    case None => None
    case Some((line, rest)) =>
      if !("HTTP/1.1 " <= line) then None
      else
        var status := line[9..];
        var i := IndexOf(status, ' ');
        if i == |status| then None
        else match ReadHeaders(rest)
          case None => None
          case Some((hs, body)) => Some(Message(status[..i], status[i+1..], hs, body))
  }

  lemma {:induction false} TakeLineOf(line: string, rest: string)
    requires forall i :: 0 <= i < |line| ==> line[i] != '\r'
    ensures TakeLine(line + CRLF + rest) == Some((line, rest))
  {
    var s := line + CRLF + rest;
    if line == "" {
      assert s[2..] == rest;
    } else {
      assert s[0] == line[0];
      assert s[1..] == line[1..] + CRLF + rest;
      TakeLineOf(line[1..], rest);
      assert line == [line[0]] + line[1..];
    }
  }

  lemma {:induction false} IndexOfAt(a: string, c: char, b: string)
    requires forall i :: 0 <= i < |a| ==> a[i] != c
    ensures IndexOf(a + [c] + b, c) == |a|
  {
    var s := a + [c] + b;
    if a != "" {
      assert s[0] == a[0];
      assert s[1..] == a[1..] + [c] + b;
      IndexOfAt(a[1..], c, b);
    }
  }

  lemma ReadHeaderOf(h: Header)
    requires Token(h.name)
    ensures ReadHeader(h.name + ": " + h.value) == Some(h)
  {
    var line := h.name + ": " + h.value;
    assert line == h.name + [':'] + (" " + h.value);
    IndexOfAt(h.name, ':', " " + h.value);
    assert line[..|h.name|] == h.name && line[|h.name|+2..] == h.value;
  }

  /** Whatever the values hold but a carriage return. */
  lemma {:induction false} ReadHeadersOf(hs: seq<Header>, body: string)
    requires forall i :: 0 <= i < |hs| ==> Token(hs[i].name) && '\r' !in hs[i].value
    ensures ReadHeaders(HeaderLines(hs) + (CRLF + body)) == Some((hs, body))
  {
    if hs == [] {
      TakeLineOf("", body);
      assert HeaderLines(hs) + (CRLF + body) == "" + CRLF + body;
    } else {
      var h, tail := hs[0], HeaderLines(hs[1..]) + (CRLF + body);
      var line := h.name + ": " + h.value;
      assert HeaderLines(hs) + (CRLF + body) == line + CRLF + tail;
      TakeLineOf(line, tail);
      ReadHeaderOf(h);
      ReadHeadersOf(hs[1..], body);
      assert hs == [h] + hs[1..];
    }
  }

  lemma {:induction false} DecimalText(n: int)
    ensures Decimal(n) != "" && SafeText(Decimal(n)) && forall i :: 0 <= i < |Decimal(n)| ==> Decimal(n)[i] != ' '
    decreases if n < 0 then 1 - n else n
  {
    if n < 0 {
      DecimalText(-n);
    } else if n >= 10 {
      DecimalText(n / 10);
    }
  }

  /** Digits only, and no zero ahead of others. */
  lemma {:induction false} DecimalDigits(n: nat)
    ensures forall i :: 0 <= i < |Decimal(n)| ==> '0' <= Decimal(n)[i] <= '9'
    ensures n > 0 ==> Decimal(n)[0] != '0'
  {
    if n >= 10 {
      DecimalDigits(n / 10);
    }
  }

  /** The value of a digit string: what the reader of Content-Length computes. */
  function Value(s: string): int {
    if s == "" then 0 else 10 * Value(s[..|s|-1]) + (s[|s|-1] as int - '0' as int)
  }

  lemma {:induction false} DecimalValue(n: nat)
    ensures Value(Decimal(n)) == n
  {
    if n >= 10 {
      DecimalValue(n / 10);
      assert Decimal(n)[..|Decimal(n)|-1] == Decimal(n / 10);
    } else {
      assert Decimal(n)[..0] == "";
    }
  }

  /**
   * The message says all the response says: its status, each of its headers in its place, and behind them one more,
   * the length of its body, unless the body is suppressed and the response names a length itself; then the body.
   */
  ghost predicate Tells(m: Message, r: Response) {
    && m.code == Decimal(r.code) && m.text == r.text && m.body == (if r.suppress then "" else r.body)
    && r.headers <= m.headers
    && if r.suppress && exists h :: h in r.headers && Lower(h.name) == "content-length" then
         |m.headers| == |r.headers|
       else
         && |m.headers| == |r.headers| + 1 && m.headers[|r.headers|].name == "Content-Length"
         && Value(m.headers[|r.headers|].value) == |r.body|
  }

  /**
   * Whatever was put into a response, the peer reads back its status, exactly its headers, the length of its body
   * and its body: no status text and no header value makes a line of its own.
   */
  lemma RoundTrip(r: Response)
    requires WellFormed(r)
    ensures ReadMessage(Serialized(r)) == Some(Message(Decimal(r.code), r.text, SentHeaders(r), SentBody(r)))
    ensures Tells(ReadMessage(Serialized(r)).value, r)
  {
    ReadBack(r);
    DecimalValue(|r.body|);
    assert forall i :: 0 <= i < |r.headers| ==> r.headers[i] in r.headers;
  }

  lemma ReadBack(r: Response)
    requires WellFormed(r)
    ensures ReadMessage(Serialized(r)) == Some(Message(Decimal(r.code), r.text, SentHeaders(r), SentBody(r)))
  {
    DecimalText(r.code);
    DecimalText(|r.body|);
    assert Token("Content-Length");
    ReadBackParts(Decimal(r.code), r.text, SentHeaders(r), SentBody(r));
    assert StatusLine(r) == "HTTP/1.1 " + (Decimal(r.code) + " " + r.text);
  }

  /** A status line, header lines, an empty line and the rest are read as that. */
  lemma ReadBackParts(code: string, text: string, hs: seq<Header>, body: string)
    requires SafeText(code) && SafeText(text) && forall i :: 0 <= i < |code| ==> code[i] != ' '
    requires forall i :: 0 <= i < |hs| ==> Token(hs[i].name) && SafeText(hs[i].value)
    ensures ReadMessage("HTTP/1.1 " + (code + " " + text) + CRLF + (HeaderLines(hs) + (CRLF + body)))
         == Some(Message(code, text, hs, body))
  {
    var line, rest := "HTTP/1.1 " + (code + " " + text), HeaderLines(hs) + (CRLF + body);
    ReadHeadersOf(hs, body);
    hide HeaderLines, ReadHeaders, TakeLine, IndexOf, Token, SafeText;
    StatusLineOf(code, text);
    TakeLineOf(line, rest);
    var status := line[9..];
    assert ReadMessage(line + CRLF + rest)
        == Some(Message(status[..IndexOf(status, ' ')], status[IndexOf(status, ' ')+1..], hs, body));
  }

  lemma StatusLineOf(code: string, text: string)
    requires SafeText(code) && SafeText(text) && forall i :: 0 <= i < |code| ==> code[i] != ' '
    ensures var line := "HTTP/1.1 " + (code + " " + text);
      && (forall i :: 0 <= i < |line| ==> line[i] != '\r')
      && "HTTP/1.1 " <= line && IndexOf(line[9..], ' ') == |code| < |line[9..]|
      && line[9..][..|code|] == code && line[9..][|code|+1..] == text
  {
    hide IndexOf;
    var status := code + " " + text;
    assert ("HTTP/1.1 " + status)[9..] == status && status == code + [' '] + text;
    IndexOfAt(code, ' ', text);
  }

  /** Two responses the peer cannot tell apart say the same thing. */
  lemma SerializedInjective(a: Response, b: Response)
    requires WellFormed(a) && WellFormed(b) && Serialized(a) == Serialized(b)
    ensures Decimal(a.code) == Decimal(b.code) && a.text == b.text
    ensures SentHeaders(a) == SentHeaders(b) && SentBody(a) == SentBody(b)
  {
    ReadBack(a);
    ReadBack(b);
  }

  /** A body that is sent has the length the message announces, the last header it carries. */
  lemma LengthIsTrue(r: Response)
    requires WellFormed(r) && !r.suppress
    ensures ReadMessage(Serialized(r)).Some?
    ensures var m := ReadMessage(Serialized(r)).value;
            && m.headers != []
            && m.headers[|m.headers|-1].name == "Content-Length"
            && Value(m.headers[|m.headers|-1].value) == |m.body|
  {
    ReadBack(r);
    DecimalValue(|r.body|);
  }

  /** A response that says close is read as one that does. */
  lemma CloseIsRead(r: Response)
    requires WellFormed(r) && SaysClose(r)
    ensures ReadMessage(Serialized(r)).Some? && ReadsClose(ReadMessage(Serialized(r)).value)
  {
    RoundTrip(r);
    var i :| 0 <= i < |r.headers| && Lower(r.headers[i].name) == "connection" && Lower(r.headers[i].value) == "close";
    assert ReadMessage(Serialized(r)).value.headers[i] == r.headers[i];
  }

  predicate ReadsClose(m: Message) {
    exists i :: 0 <= i < |m.headers| && Lower(m.headers[i].name) == "connection" && Lower(m.headers[i].value) == "close"
  }

  // ─── The mutable response ──────────────────────────────────────────────────

  class HttpResponse {
    var statusCode: int
    var statusText: string
    var headers: seq<Header>
    var body: string
    var suppressBody: bool
    var deferred: bool

    ghost function View(): Response
      reads this
    {
      Response(statusCode, statusText, headers, body, suppressBody)
    }

    ghost predicate Valid()
      reads this
    {
      WellFormed(View())
    }

    constructor ()
      ensures Valid() && View() == Response(200, "OK", [], "", false) && !deferred
    {
      statusCode, statusText, headers, body, suppressBody, deferred := 200, "OK", [], "", false, false;
    }

    method SetStatus(code: int, text: string)
      requires Valid()
      modifies this
      ensures Valid() && View() == old(View()).(code := code, text := SafePrefix(text)) && deferred == old(deferred)
    {
      statusCode := code;
      statusText := HeaderSafe(text);
    }

    method SetHeader(name: string, value: string)
      requires Valid()
      modifies this
      ensures Valid() && View() == Set(old(View()), name, value) && deferred == old(deferred)
    {
      SetKeepsWellFormed(View(), name, value);
      var ok := HeaderNameOk(name);
      if !ok { return; }
      var safe := HeaderSafe(value);
      for i := 0 to |headers|
        invariant forall j :: 0 <= j < i ==> headers[j].name != name
        invariant View() == old(View()) && deferred == old(deferred)
      {
        if headers[i].name == name {
          ReplacedAt(headers, name, safe, i);
          headers := headers[i := Header(name, safe)];
          return;
        }
      }
      ReplacedAbsent(headers, name, safe);
      headers := headers + [Header(name, safe)];
    }

    method AddHeader(name: string, value: string)
      requires Valid()
      modifies this
      ensures Valid() && deferred == old(deferred)
      ensures View() == if Token(name) then old(View()).(headers := old(headers) + [Header(name, SafePrefix(value))])
              else old(View())
    {
      var ok := HeaderNameOk(name);
      if ok {
        var safe := HeaderSafe(value);
        headers := headers + [Header(name, safe)];
      }
    }

    method DelHeader(name: string)
      requires Valid()
      modifies this
      ensures Valid() && View() == old(View()).(headers := Without(old(headers), name)) && deferred == old(deferred)
    {
      var kept: seq<Header> := [];
      for i := 0 to |headers|
        invariant kept == Without(headers[..i], name)
        invariant View() == old(View()) && deferred == old(deferred)
      {
        assert headers[..i+1][..i] == headers[..i];
        if headers[i].name != name {
          kept := kept + [headers[i]];
        }
      }
      assert headers[..|headers|] == headers;
      WithoutHeaders(headers, name);
      assert forall i :: 0 <= i < |kept| ==> kept[i] in kept;
      headers := kept;
    }

    method SetBody(text: string, contentType: string)
      requires Valid()
      modifies this
      ensures Valid() && View() == Set(old(View()).(body := text), "Content-Type", contentType)
      ensures deferred == old(deferred)
    {
      body := text;
      SetHeader("Content-Type", contentType);
    }

    method SetCloseHeader(close: bool)
      requires Valid()
      modifies this
      ensures Valid() && deferred == old(deferred)
      ensures View() == if close then SetClose(old(View())) else old(View())
      ensures close ==> SaysClose(View())
    {
      if close {
        SetCloseSaysClose(View());
        SetHeader("Connection", "close");
      }
    }

    method Clear()
      modifies this
      ensures Valid() && View() == Response(200, "OK", [], "", false) && !deferred
    {
      statusCode, statusText, headers, body, suppressBody, deferred := 200, "OK", [], "", false, false;
    }

    method NamesLength() returns (found: bool)
      ensures found == OwnLength(View())
    {
      if suppressBody {
        for i := 0 to |headers|
          invariant forall j :: 0 <= j < i ==> Lower(headers[j].name) != "content-length"
        {
          if |headers[i].name| == 14 && Lower(headers[i].name) == "content-length" {
            return true;
          }
        }
      }
      return false;
    }

    method PrintHeaders() returns (out: string)
      ensures out == HeaderLines(headers)
    {
      out := "";
      for i := 0 to |headers|
        invariant out == HeaderLines(headers[..i])
      {
        HeaderLinesAppend(headers[..i], [headers[i]]);
        assert headers[..i+1] == headers[..i] + [headers[i]];
        assert HeaderLines([headers[i]]) == HeaderLine(headers[i]);
        out := out + (headers[i].name + ": " + headers[i].value + "\r\n");
      }
      assert headers[..|headers|] == headers;
    }

    /** What goes out is what the peer reads back as this response. */
    method Serialize() returns (out: string)
      requires Valid()
      ensures out == Serialized(View())
      ensures ReadMessage(out).Some? && Tells(ReadMessage(out).value, View())
    {
      var lines := PrintHeaders();
      var hasContentLength := NamesLength();
      if !hasContentLength {
        AppendLength(headers, |body|);
        lines := lines + ("Content-Length: " + Decimal(|body|) + "\r\n");
      }
      out := "HTTP/1.1 " + Decimal(statusCode) + " " + statusText + "\r\n" + lines + "\r\n";
      if !suppressBody {
        out := out + body;
      }
      assert out == Serialized(View()) by {
        assert lines == HeaderLines(SentHeaders(View()));
      }
      RoundTrip(View());
    }
  }
}
