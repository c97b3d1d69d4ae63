/**
 * The data of one SMTP message: headers and a dot-stuffed body, followed by the end-of-data sequence.
 * A receiver cuts at the first end of data and takes one dot off every line that begins with one
 * (section 4.5.2 of RFC 5321); its lines end with CR LF, while the client stuffs after any LF.
 */
module SmtpMessages {

  import HttpMessage
  import opened Wrappers

  datatype Message = Message(from: string, to: seq<string>, subject: string, contentType: string, body: string)

  const CRLF := "\r\n"
  const END := "\r\n.\r\n"

  // ─── The client ────────────────────────────────────────────────────────────

  predicate FoundAt(s: string, part: string, k: nat) {
    k + |part| <= |s| && s[k..k + |part|] == part
  }

  predicate Contains(s: string, part: string) {
    exists k :: 0 <= k <= |s| && FoundAt(s, part, k)
  }

  /** A body that is a whole MIME message already. */
  predicate RawMime(body: string) {
    Contains(body, "MIME-Version:") && Contains(body, "Content-Type:")
  }

  function Field(name: string, value: string): string {
    name + ": " + value + CRLF
  }

  function ToLines(to: seq<string>): string {
    if to == [] then "" else ToLines(to[..|to| - 1]) + Field("To", to[|to| - 1])
  }

  function Headers(m: Message): string {
    Field("From", m.from) + ToLines(m.to) + Field("Subject", m.subject) + "MIME-Version: 1.0\r\n"
    + Field("Content-Type", m.contentType + "; charset=UTF-8") + CRLF
  }

  /** What stands before the body. */
  function Preamble(m: Message): string {
    if RawMime(m.body) then "" else Headers(m)
  }

  /** A dot in front of every dot that begins a line, whatever ended the line before. */
  function Stuffed(body: string): string {
    if body == "" then ""
    else
      var rest, c := body[..|body| - 1], body[|body| - 1];
      Stuffed(rest) + (if AtLineStart(rest) && c == '.' then ".." else [c])
  }

  predicate AtLineStart(s: string) {
    s == "" || s[|s| - 1] == '\n'
  }

  method BuildHeaders(m: Message) returns (out: string)
    ensures out == Headers(m)
  {
    hide Field;
    out := Field("From", m.from);
    var i := 0;
    while i < |m.to|
      invariant i <= |m.to| && out == Field("From", m.from) + ToLines(m.to[..i])
    {
      assert m.to[..i + 1][..i] == m.to[..i];
      assert ToLines(m.to[..i + 1]) == ToLines(m.to[..i]) + Field("To", m.to[i]);
      out := out + Field("To", m.to[i]);
      i := i + 1;
    }
    assert m.to[..|m.to|] == m.to;
    out := out + Field("Subject", m.subject) + "MIME-Version: 1.0\r\n";
    out := out + Field("Content-Type", m.contentType + "; charset=UTF-8") + CRLF;
  }

  method BuildPreamble(m: Message) returns (out: string)
    ensures out == Preamble(m)
  {
    hide Headers, RawMime;
    out := "";
    var raw := RawMime(m.body);
    if !raw { out := BuildHeaders(m); }
  }

  method BuildMessageData(m: Message) returns (out: string)
    ensures out == Preamble(m) + Stuffed(m.body)
  {
    hide Preamble, Stuffed;
    out := BuildPreamble(m);
    ghost var start := out;
    StuffedNothing();
    var atLineStart := true;
    var i := 0;
    while i < |m.body|
      invariant i <= |m.body| && out == start + Stuffed(m.body[..i]) && atLineStart == AtLineStart(m.body[..i])
    {
      var c := m.body[i];
      assert m.body[..i + 1][..i] == m.body[..i];
      StuffedNext(m.body[..i], c);
      assert m.body[..i] + [c] == m.body[..i + 1];
      if atLineStart && c == '.' { out := out + "."; }
      out := out + [c];
      atLineStart := c == '\n';
      i := i + 1;
    }
    assert m.body[..|m.body|] == m.body;
  }

  /** Everything the client sends after the server's 354. */
  function Sent(m: Message): string {
    Preamble(m) + Stuffed(m.body) + END
  }

  // ─── The receiver ──────────────────────────────────────────────────────────

  /** The text ends with CR LF, or nothing has come yet: a line begins. */
  predicate AtLine(s: string) {
    s == "" || (|s| >= 2 && s[|s| - 2] == '\r' && s[|s| - 1] == '\n')
  }

  /** One dot less on every line that begins with one. */
  function Unstuffed(data: string): string {
    if data == "" then ""
    else
      var rest, c := data[..|data| - 1], data[|data| - 1];
      Unstuffed(rest) + (if AtLine(rest) && c == '.' then "" else [c])
  }

  /** The end of data begins at k in what follows the CR LF of the DATA command. */
  predicate EndsAt(sent: string, k: nat) {
    FoundAt(CRLF + sent, END, k)
  }

  // ─── The end of data comes once ────────────────────────────────────────────

  predicate OneLine(s: string) {
    '\r' !in s && '\n' !in s
  }

  /** The header fields hold no line ends. */
  predicate CleanFields(m: Message) {
    OneLine(m.from) && OneLine(m.subject) && OneLine(m.contentType) && forall k :: 0 <= k < |m.to| ==> OneLine(m.to[k])
  }

  /** Whole lines, none of which begins with a dot. */
  predicate PlainLines(s: string) {
    AtLine(s) && forall k :: 0 <= k < |s| && AtLineStart(s[..k]) ==> s[k] != '.'
  }

  lemma LinesTogether(a: string, b: string)
    requires PlainLines(a) && PlainLines(b)
    ensures PlainLines(a + b)
  {
    forall k | 0 <= k < |a + b| && AtLineStart((a + b)[..k]) ensures (a + b)[k] != '.' {
      if k < |a| {
        assert (a + b)[..k] == a[..k];
      } else {
        assert (a + b)[k] == b[k - |a|];
        if k > |a| { assert (a + b)[..k] == a + b[..k - |a|]; }
        assert AtLineStart(b[..k - |a|]);
      }
    }
  }

  lemma LineAlone(text: string)
    requires OneLine(text) && (text != "" ==> text[0] != '.')
    ensures PlainLines(text + CRLF)
  {
    var s := text + CRLF;
    forall k | 0 <= k < |s| && AtLineStart(s[..k]) ensures s[k] != '.' {
      if 0 < k { assert s[..k][k - 1] == s[k - 1] == '\n'; }
    }
  }

  lemma FieldAlone(name: string, value: string)
    requires OneLine(name) && name != "" && name[0] != '.' && OneLine(value)
    ensures PlainLines(Field(name, value))
  {
    LineAlone(name + ": " + value);
  }

  lemma {:induction false} ToLinesPlain(to: seq<string>)
    requires forall k :: 0 <= k < |to| ==> OneLine(to[k])
    ensures PlainLines(ToLines(to))
  {
    if to != [] {
      ToLinesPlain(to[..|to| - 1]);
      FieldAlone("To", to[|to| - 1]);
      LinesTogether(ToLines(to[..|to| - 1]), Field("To", to[|to| - 1]));
    }
  }

  lemma SixTogether(a: string, b: string, c: string, d: string, e: string, f: string)
    requires PlainLines(a) && PlainLines(b) && PlainLines(c) && PlainLines(d) && PlainLines(e) && PlainLines(f)
    ensures PlainLines(a + b + c + d + e + f)
  {
    hide PlainLines;
    LinesTogether(a, b);
    LinesTogether(a + b, c);
    LinesTogether(a + b + c, d);
    LinesTogether(a + b + c + d, e);
    LinesTogether(a + b + c + d + e, f);
  }

  lemma FixedLines()
    ensures PlainLines("MIME-Version: 1.0\r\n") && PlainLines(CRLF)
  {
    LineAlone("MIME-Version: 1.0");
    assert "MIME-Version: 1.0" + CRLF == "MIME-Version: 1.0\r\n";
    LineAlone("");
    assert "" + CRLF == CRLF;
  }

  lemma FieldsPlain(m: Message)
    requires CleanFields(m)
    ensures PlainLines(Field("From", m.from)) && PlainLines(Field("Subject", m.subject))
    ensures PlainLines(Field("Content-Type", m.contentType + "; charset=UTF-8"))
  {
    hide PlainLines, Field, OneLine;
    Names();
    FieldAlone("From", m.from);
    FieldAlone("Subject", m.subject);
    Longer(m.contentType);
    FieldAlone("Content-Type", m.contentType + "; charset=UTF-8");
  }

  lemma Names()
    ensures OneLine("From") && OneLine("Subject") && OneLine("Content-Type")
  {
  }

  lemma Longer(value: string)
    requires OneLine(value)
    ensures OneLine(value + "; charset=UTF-8")
  {
  }

  lemma HeadersPlain(m: Message)
    requires CleanFields(m)
    ensures PlainLines(Headers(m))
  {
    hide PlainLines, Field, ToLines;
    FieldsPlain(m);
    ToLinesPlain(m.to);
    FixedLines();
    SixTogether(Field("From", m.from), ToLines(m.to), Field("Subject", m.subject), "MIME-Version: 1.0\r\n",
                Field("Content-Type", m.contentType + "; charset=UTF-8"), CRLF);
  }

  lemma PreamblePlain(m: Message)
    requires CleanFields(m)
    ensures PlainLines(Preamble(m))
  {
    hide PlainLines, Headers;
    HeadersPlain(m);
    EmptyPlain();
  }

  // ─── The header fields ─────────────────────────────────────────────────────

  function Fields(m: Message): seq<HttpMessage.Header> {
    [HttpMessage.Header("From", m.from)] + ToFields(m.to) +
    [HttpMessage.Header("Subject", m.subject), HttpMessage.Header("MIME-Version", "1.0"),
     HttpMessage.Header("Content-Type", m.contentType + "; charset=UTF-8")]
  }

  function ToFields(to: seq<string>): (hs: seq<HttpMessage.Header>)
    ensures |hs| == |to| && forall i :: 0 <= i < |to| ==> hs[i] == HttpMessage.Header("To", to[i])
  {
    seq(|to|, i requires 0 <= i < |to| => HttpMessage.Header("To", to[i]))
  }

  lemma FieldIsLine(name: string, value: string)
    ensures Field(name, value) == HttpMessage.HeaderLines([HttpMessage.Header(name, value)])
  {
    assert [HttpMessage.Header(name, value)][1..] == [];
  }

  lemma {:induction false} ToLinesAre(to: seq<string>)
    ensures ToLines(to) == HttpMessage.HeaderLines(ToFields(to))
  {
    if to != [] {
      ToLinesAre(to[..|to| - 1]);
      FieldIsLine("To", to[|to| - 1]);
      HttpMessage.HeaderLinesAppend(ToFields(to[..|to| - 1]), [HttpMessage.Header("To", to[|to| - 1])]);
      assert ToFields(to) == ToFields(to[..|to| - 1]) + [HttpMessage.Header("To", to[|to| - 1])];
    }
  }

  lemma HeadersAreLines(m: Message)
    ensures Headers(m) == HttpMessage.HeaderLines(Fields(m)) + CRLF
  {
    hide Field, ToLines, HttpMessage.HeaderLines;
    var from, subject, version, content := HttpMessage.Header("From", m.from),
      HttpMessage.Header("Subject", m.subject), HttpMessage.Header("MIME-Version", "1.0"),
      HttpMessage.Header("Content-Type", m.contentType + "; charset=UTF-8");
    FieldIsLine("From", m.from);
    FieldIsLine("Subject", m.subject);
    VersionLine();
    FieldIsLine("Content-Type", m.contentType + "; charset=UTF-8");
    ToLinesAre(m.to);
    HttpMessage.HeaderLinesAppend([from], ToFields(m.to));
    HttpMessage.HeaderLinesAppend([from] + ToFields(m.to), [subject]);
    HttpMessage.HeaderLinesAppend([from] + ToFields(m.to) + [subject], [version]);
    HttpMessage.HeaderLinesAppend([from] + ToFields(m.to) + [subject] + [version], [content]);
    assert Fields(m) == [from] + ToFields(m.to) + [subject] + [version] + [content];
  }

  lemma VersionLine()
    ensures "MIME-Version: 1.0\r\n" == HttpMessage.HeaderLines([HttpMessage.Header("MIME-Version", "1.0")])
  {
    FieldIsLine("MIME-Version", "1.0");
    assert "MIME-Version: 1.0\r\n" == "MIME-Version" + ": " + "1.0" + CRLF;
  }

  lemma FieldNames()
    ensures HttpMessage.Token("From") && HttpMessage.Token("To") && HttpMessage.Token("Subject")
    ensures HttpMessage.Token("MIME-Version") && HttpMessage.Token("Content-Type")
    ensures '\r' !in "1.0" && '\r' !in "; charset=UTF-8"
  {
  }

  /** The header fields are left out exactly when the body brings its own. */
  lemma HeadersUnlessRaw(m: Message)
    ensures Preamble(m) == "" <==>
            ((exists k :: 0 <= k <= |m.body| && FoundAt(m.body, "MIME-Version:", k))
             && (exists k :: 0 <= k <= |m.body| && FoundAt(m.body, "Content-Type:", k)))
    ensures Preamble(m) != "" ==> Preamble(m) == Headers(m)
  {
    assert Headers(m) != "";
  }

  /** A reader of header lines finds the sender, every recipient, the subject and the type, and then the body. */
  lemma HeadersAreRead(m: Message, body: string)
    requires CleanFields(m)
    ensures HttpMessage.ReadHeaders(Headers(m) + body).Some?
    ensures var (hs, rest) := HttpMessage.ReadHeaders(Headers(m) + body).value; var n := |m.to|;
      && rest == body && |hs| == n + 4
      && hs[0] == HttpMessage.Header("From", m.from)
      && (forall i :: 0 <= i < n ==> hs[1 + i] == HttpMessage.Header("To", m.to[i]))
      && hs[n + 1] == HttpMessage.Header("Subject", m.subject)
      && hs[n + 2] == HttpMessage.Header("MIME-Version", "1.0")
      && hs[n + 3] == HttpMessage.Header("Content-Type", m.contentType + "; charset=UTF-8")
  {
    hide Headers, HttpMessage.HeaderLines, HttpMessage.ReadHeaders, HttpMessage.Token;
    FieldNames();
    HeadersAreLines(m);
    assert (HttpMessage.HeaderLines(Fields(m)) + CRLF) + body == HttpMessage.HeaderLines(Fields(m)) + (CRLF + body);
    HttpMessage.ReadHeadersOf(Fields(m), body);
  }

  lemma EmptyPlain()
    ensures PlainLines("")
  {
  }

  /** Every dot that begins a line is followed by another. */
  predicate DotsDoubled(s: string) {
    forall k :: 0 <= k < |s| && s[k] == '.' && AtLineStart(s[..k]) ==> k + 1 < |s| && s[k + 1] == '.'
  }

  lemma {:induction false} StuffedDoubles(pre: string, body: string)
    requires PlainLines(pre)
    ensures DotsDoubled(pre + Stuffed(body))
    ensures AtLineStart(pre + Stuffed(body)) == AtLineStart(body)
    decreases |body|
  {
    if body == "" {
      assert pre + "" == pre;
    } else {
      var rest, c := body[..|body| - 1], body[|body| - 1];
      StuffedDoubles(pre, rest);
      var data := pre + Stuffed(rest);
      if AtLineStart(rest) && c == '.' {
        assert pre + Stuffed(body) == data + "..";
        DoubledByTwo(data);
      } else {
        assert pre + Stuffed(body) == data + [c];
        DoubledByOne(data, c);
      }
    }
  }

  lemma DoubledByTwo(data: string)
    requires DotsDoubled(data)
    ensures DotsDoubled(data + "..")
  {
    var s := data + "..";
    forall k | 0 <= k < |s| && s[k] == '.' && AtLineStart(s[..k]) ensures k + 1 < |s| && s[k + 1] == '.' {
      if k < |data| { assert s[..k] == data[..k]; }
    }
  }

  lemma DoubledByOne(data: string, c: char)
    requires DotsDoubled(data) && !(AtLineStart(data) && c == '.')
    ensures DotsDoubled(data + [c])
  {
    var s := data + [c];
    assert s[..|data|] == data;
    forall k | 0 <= k < |s| && s[k] == '.' && AtLineStart(s[..k]) ensures k + 1 < |s| && s[k + 1] == '.' {
      if k < |data| { assert s[..k] == data[..k]; }
    }
  }

  /** Whatever the body, the end of data is at the very end of what is sent and nowhere before. */
  lemma EndComesOnce(m: Message, k: nat)
    requires CleanFields(m)
    ensures EndsAt(Sent(m), k) <==> k == |Preamble(m) + Stuffed(m.body)| + 2
  {
    var data := Preamble(m) + Stuffed(m.body);
    PreamblePlain(m);
    StuffedDoubles(Preamble(m), m.body);
    hide Preamble, Stuffed, PlainLines;
    assert Sent(m) == data + END;
    EndAfterData(data, k);
  }

  lemma NoEndInData(data: string, k: nat)
    requires DotsDoubled(data) && k < |data|
    ensures !EndsAt(data + END, k)
  {
    var stream := CRLF + (data + END);
    var five := stream[k..k + 5];
    assert five[1] == stream[k + 1] && five[2] == stream[k + 2] == data[k] && five[3] == stream[k + 3];
    assert k > 0 ==> stream[k + 1] == data[k - 1];
    assert k + 1 < |data| ==> stream[k + 3] == data[k + 1];
  }

  lemma NoEndBeforeLast(data: string, k: nat)
    requires |data| <= k < |data| + 2
    ensures !EndsAt(data + END, k)
  {
    var stream := CRLF + (data + END);
    assert stream[k..k + 5][2] == stream[k + 2] == END[k - |data|];
  }

  lemma EndAfterData(data: string, k: nat)
    requires DotsDoubled(data)
    ensures EndsAt(data + END, k) <==> k == |data| + 2
  {
    if k < |data| { NoEndInData(data, k); }
    else if k < |data| + 2 { NoEndBeforeLast(data, k); }
    else if k == |data| + 2 { assert (CRLF + (data + END))[k..k + 5] == END; }
  }

  // ─── The message comes back, or not ────────────────────────────────────────

  /** A dot that begins a line for the client and not for the receiver: the LF before it has no CR. */
  predicate BareDot(body: string, k: nat) {
    1 <= k < |body| && body[k] == '.' && body[k - 1] == '\n' && !(k >= 2 && body[k - 2] == '\r')
  }

  /** The body as the receiver reads it: every such dot is doubled. */
  function Received(body: string): string {
    if body == "" then ""
    else
      var rest, c := body[..|body| - 1], body[|body| - 1];
      Received(rest) + (if BareDot(body, |body| - 1) then ".." else [c])
  }

  lemma {:induction false} PlainUnstuffed(pre: string)
    requires forall k :: 0 <= k < |pre| && AtLineStart(pre[..k]) ==> pre[k] != '.'
    ensures Unstuffed(pre) == pre
  {
    if pre != "" {
      var rest := pre[..|pre| - 1];
      forall k | 0 <= k < |rest| && AtLineStart(rest[..k]) ensures rest[k] != '.' {
        assert rest[..k] == pre[..k];
      }
      PlainUnstuffed(rest);
    }
  }

  lemma UnstuffOne(data: string, c: char)
    ensures Unstuffed(data + [c]) == Unstuffed(data) + (if AtLine(data) && c == '.' then "" else [c])
  {
    assert (data + [c])[..|data|] == data;
  }

  lemma LineOfLast(data: string, c: char)
    ensures AtLine(data + [c]) <==> c == '\n' && data != "" && data[|data| - 1] == '\r'
  {
  }

  /** The last character before a line feed of the body: the body's own, or what ends the headers. */
  lemma BeforeLast(pre: string, rest: string)
    requires PlainLines(pre)
    ensures var data := pre + Stuffed(rest);
      (data != "" && data[|data| - 1] == '\r') <==> (rest != "" && rest[|rest| - 1] == '\r')
  {
    EndsOfLine(pre);
    if rest == "" { StuffedNothing(); } else { LastOfStuffed(rest); }
    hide PlainLines, Stuffed;
  }

  lemma LineAfterFeed(pre: string, rest: string)
    requires PlainLines(pre)
    ensures AtLine(pre + Stuffed(rest + ['\n'])) <==> rest != "" && rest[|rest| - 1] == '\r'
  {
    hide PlainLines, Stuffed, AtLine;
    StuffedNext(rest, '\n');
    BeforeLast(pre, rest);
    LineOfLast(pre + Stuffed(rest), '\n');
    assert pre + (Stuffed(rest) + ['\n']) == (pre + Stuffed(rest)) + ['\n'];
  }

  lemma NoLine(pre: string, body: string)
    requires body != "" && body[|body| - 1] != '\n'
    ensures !AtLine(pre + Stuffed(body))
  {
    LastOfStuffed(body);
    hide Stuffed;
    var data := pre + Stuffed(body);
    assert data[|data| - 1] == body[|body| - 1];
  }

  /** The client's line starts as the receiver sees them. */
  lemma LineOfStuffed(pre: string, body: string)
    requires PlainLines(pre)
    ensures AtLine(pre + Stuffed(body)) <==> (body
                                              == "" || (|body| >= 2 && body[|body| - 2] == '\r'
                                                        && body[|body| - 1] == '\n'))
  {
    hide PlainLines, Stuffed, AtLine;
    if body == "" {
      LineOfNothing(pre);
    } else if body[|body| - 1] == '\n' {
      var rest := body[..|body| - 1];
      LineAfterFeed(pre, rest);
      assert rest + ['\n'] == body;
    } else {
      NoLine(pre, body);
    }
  }

  lemma LineOfNothing(pre: string)
    requires PlainLines(pre)
    ensures AtLine(pre + Stuffed(""))
  {
    assert pre + Stuffed("") == pre;
  }

  lemma StuffedNothing()
    ensures Stuffed("") == ""
  {
  }

  /** What stands before the body does not end with a CR. */
  lemma EndsOfLine(pre: string)
    requires PlainLines(pre)
    ensures pre == "" || pre[|pre| - 1] == '\n'
  {
  }

  lemma LastOfStuffed(body: string)
    requires body != ""
    ensures Stuffed(body) != "" && Stuffed(body)[|Stuffed(body)| - 1] == body[|body| - 1]
    ensures body[|body| - 1] == '\n' ==> Stuffed(body) == Stuffed(body[..|body| - 1]) + "\n"
  {
  }

  /** A stuffed dot: the receiver drops one of the two, unless it saw no line begin. */
  lemma UnstuffTwo(data: string)
    ensures Unstuffed(data + "..") == Unstuffed(data) + (if AtLine(data) then "." else "..")
  {
    hide Unstuffed, AtLine;
    var one := data + ['.'];
    LineOfLast(data, '.');
    UnstuffOne(data, '.');
    UnstuffOne(one, '.');
    assert data + ".." == one + ['.'];
    if AtLine(data) {
      assert Unstuffed(data) + "" == Unstuffed(data);
    } else {
      assert (Unstuffed(data) + ['.']) + ['.'] == Unstuffed(data) + "..";
    }
  }

  lemma StuffedNext(rest: string, c: char)
    ensures Stuffed(rest + [c]) == Stuffed(rest) + (if AtLineStart(rest) && c == '.' then ".." else [c])
  {
    assert (rest + [c])[..|rest|] == rest;
  }

  /** One more character of the body, which may be stuffed. */
  lemma UnstuffNext(pre: string, rest: string, c: char)
    requires PlainLines(pre)
    ensures Unstuffed(pre + Stuffed(rest + [c])) == Unstuffed(pre + Stuffed(rest))
            + (if BareDot(rest + [c], |rest|) then ".." else [c])
  {
    hide Unstuffed, Stuffed, PlainLines, AtLine;
    var data := pre + Stuffed(rest);
    LineOfStuffed(pre, rest);
    StuffedNext(rest, c);
    if AtLineStart(rest) && c == '.' {
      assert pre + (Stuffed(rest) + "..") == data + "..";
      UnstuffTwo(data);
    } else {
      assert pre + (Stuffed(rest) + [c]) == data + [c];
      UnstuffOne(data, c);
    }
  }

  lemma {:induction false} UnstuffStuffed(pre: string, body: string)
    requires PlainLines(pre)
    ensures Unstuffed(pre + Stuffed(body)) == pre + Received(body)
    decreases |body|
  {
    if body == "" {
      PlainUnstuffed(pre);
      assert pre + "" == pre;
    } else {
      var rest, c := body[..|body| - 1], body[|body| - 1];
      hide Unstuffed, Stuffed, PlainLines, BareDot;
      UnstuffStuffed(pre, rest);
      UnstuffNext(pre, rest, c);
      assert rest + [c] == body;
      var more := if BareDot(body, |rest|) then ".." else [c];
      assert Received(body) == Received(rest) + more;
      assert (pre + Received(rest)) + more == pre + (Received(rest) + more);
    }
  }

  ghost predicate NoBareDot(body: string) {
    forall k: nat :: !BareDot(body, k)
  }

  /** What follows makes no dot before it a bare one, and none that is one good. */
  lemma NoneSoFar(rest: string, c: char)
    ensures NoBareDot(rest + [c]) <==> NoBareDot(rest) && !BareDot(rest + [c], |rest|)
  {
    forall k: nat ensures BareDot(rest + [c], k) <==> BareDot(rest, k) || (k == |rest| && BareDot(rest + [c], k)) {
    }
    hide BareDot;
  }

  lemma {:induction false} ReceivedIsBody(body: string)
    ensures |Received(body)| >= |body|
    ensures Received(body) == body <==> NoBareDot(body)
  {
    if body == "" {
      assert Received(body) == "";
    } else {
      var last := |body| - 1;
      var rest, more := body[..last], if BareDot(body, last) then ".." else [body[last]];
      ReceivedIsBody(rest);
      assert Received(body) == Received(rest) + more;
      hide Received, BareDot, NoBareDot;
      assert body == rest + [body[last]];
      NoneSoFar(rest, body[last]);
      AppendedIsBody(Received(rest), rest, more, body[last]);
    }
  }

  lemma AppendedIsBody(received: string, rest: string, more: string, c: char)
    requires |received| >= |rest| && (more == [c] || |more| == 2)
    ensures received + more == rest + [c] <==> received == rest && |more| == 1
  {
    if received + more == rest + [c] {
      assert |received| == |rest| && |more| == 1;
      assert received == (received + more)[..|rest|] && rest == (rest + [c])[..|rest|];
    }
  }

  /** Cut at its end and unstuffed, the message comes back exactly when no dot follows a bare LF in the body. */
  lemma MessageComesBack(m: Message)
    requires CleanFields(m)
    ensures Unstuffed(Preamble(m) + Stuffed(m.body)) == Preamble(m) + m.body <==> forall k: nat :: !BareDot(m.body, k)
  {
    PreamblePlain(m);
    UnstuffStuffed(Preamble(m), m.body);
    ReceivedIsBody(m.body);
    hide Preamble, Stuffed, Unstuffed, BareDot;
    var pre := Preamble(m);
    assert (pre + Received(m.body))[|pre|..] == Received(m.body) && (pre + m.body)[|pre|..] == m.body;
  }

  /** One that does not: the receiver reads two dots. */
  lemma BareLineFeed()
    ensures Received("a\n.b") == "a\n..b"
  {
    assert "a\n.b"[..3] == "a\n." && "a\n."[..2] == "a\n" && "a\n"[..1] == "a" && "a"[..0] == "";
    assert Received("a") == "a";
    assert Received("a\n") == "a\n";
    assert Received("a\n.") == "a\n..";
  }
}
