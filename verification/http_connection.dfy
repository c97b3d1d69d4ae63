/**
 * HttpConnection: a pipelined HTTP/1.1 connection with one request in work, deferred answers,
 * partial writes, file answers, a write throttle with hysteresis, held input, an event mask it
 * keeps itself, and a graceful end.
 *
 * Everything outside the connection is an Environment whose script decides how many bytes each
 * transfer moves, what each read returns and what each handler does; the connection sees only its
 * contracts, so what is proved holds for every script.
 */
module HttpConnection {
  import opened HttpMessage
  import opened Strings
  import opened Wrappers

  const HIGH_WATER: nat := 262144
  const LOW_WATER: nat := 65536
  const READ_SIZE: nat := 8192

  // ─── Framing of the input ──────────────────────────────────────────────────

  /** What a byte-driven request parser says of the bytes of a request read so far. */
  datatype Verdict = More | Complete | Malformed(error: string)

  datatype Framing = Framing(judge: string -> Verdict, keepAlive: string -> bool, websocket: string -> bool)

  /** The requests in a byte string, the bytes of an unfinished one, and whether a byte was refused. */
  datatype Parsed = Parsed(requests: seq<string>, rest: string, bad: bool)

  function ParseByte(judge: string -> Verdict, p: Parsed, b: char): Parsed {
    if p.bad then p
    else match judge(p.rest + [b])
      case More => p.(rest := p.rest + [b])
      case Complete => Parsed(p.requests + [p.rest + [b]], "", false)
      case Malformed(_) => p.(bad := true)
  }

  function Parse(judge: string -> Verdict, s: string): Parsed {
    if s == "" then Parsed([], "", false) else ParseByte(judge, Parse(judge, s[..|s|-1]), s[|s|-1])
  }

  lemma ParseAppend(judge: string -> Verdict, s: string, b: char)
    ensures Parse(judge, s + [b]) == ParseByte(judge, Parse(judge, s), b)
  {
    assert (s + [b])[..|s|] == s;
  }

  /** More input never changes a request already found. */
  lemma {:induction false} ParseExtends(judge: string -> Verdict, a: string, b: string)
    ensures Parse(judge, a).requests <= Parse(judge, a + b).requests
    ensures Parse(judge, a).bad ==> Parse(judge, a + b) == Parse(judge, a)
  {
    if b == "" {
      assert a + b == a;
    } else {
      var front := b[..|b|-1];
      ParseExtends(judge, a, front);
      assert a + b == (a + front) + [b[|b|-1]];
      ParseAppend(judge, a + front, b[|b|-1]);
    }
  }

  /** A whole request: complete at its last byte and at no byte before it. */
  ghost predicate Frame(judge: string -> Verdict, m: string) {
    m != "" && judge(m) == Complete && forall i :: 0 < i < |m| ==> judge(m[..i]) == More
  }

  lemma {:induction false} ParseUnfinished(judge: string -> Verdict, s: string, m: string, n: nat)
    requires Parse(judge, s).rest == "" && !Parse(judge, s).bad
    requires n <= |m| && forall i :: 0 < i <= n ==> judge(m[..i]) == More
    ensures Parse(judge, s + m[..n]) == Parse(judge, s).(rest := m[..n])
  {
    if n == 0 {
      assert s + m[..n] == s;
    } else {
      ParseUnfinished(judge, s, m, n - 1);
      assert m[..n-1] + [m[n-1]] == m[..n];
      assert (s + m[..n-1]) + [m[n-1]] == s + m[..n];
      ParseAppend(judge, s + m[..n-1], m[n-1]);
    }
  }

  function Concat(ms: seq<string>): string {
    if ms == [] then "" else Concat(ms[..|ms|-1]) + ms[|ms|-1]
  }

  lemma ParseFrame(judge: string -> Verdict, s: string, m: string)
    requires Parse(judge, s).rest == "" && !Parse(judge, s).bad && Frame(judge, m)
    ensures Parse(judge, s + m) == Parsed(Parse(judge, s).requests + [m], "", false)
  {
    hide Parse;
    var n := |m| - 1;
    ParseUnfinished(judge, s, m, n);
    assert m[..n] + [m[n]] == m;
    assert (s + m[..n]) + [m[n]] == s + m;
    ParseAppend(judge, s + m[..n], m[n]);
  }

  /** Pipelined requests come out as they were put in. */
  lemma {:induction false} ParseConcat(judge: string -> Verdict, ms: seq<string>)
    requires forall i :: 0 <= i < |ms| ==> Frame(judge, ms[i])
    ensures Parse(judge, Concat(ms)) == Parsed(ms, "", false)
  {
    if ms != [] {
      ParseConcat(judge, ms[..|ms|-1]);
      ParseFrame(judge, Concat(ms[..|ms|-1]), ms[|ms|-1]);
      assert ms[..|ms|-1] + [ms[|ms|-1]] == ms;
    }
  }

  // ─── The environment ───────────────────────────────────────────────────────

  datatype ReadOutcome = Again | Eof | Data(bytes: string)

  /** The file behind a file answer: absent, not a regular file, or its content when opened. */
  datatype FileSource = Missing | NotRegular | Regular(content: string)

  /** What a handler does with a request: exactly one answer, now or later. */
  datatype Action =
    | Fill(resp: Response)                      // fills the response it is given
    | SendNow(resp: Response)                   // deferred, but sent before it returns
    | SendFileNow(source: FileSource, mime: string)
    | Defer                                     // answered later, from a module's callback

  datatype Mask = Mask(input: bool, output: bool, peer: bool)
  datatype Events = Events(input: bool, output: bool, peer: bool, hangup: bool, error: bool)

  /**
   * What the next transfer of so many bytes comes to: -2 the peer is gone, -1 would block, else the bytes moved; all of
   * them when the script has run out.
   */
  function Outcome(transfers: seq<int>, size: nat): (n: int)
    ensures -2 <= n <= size
  {
    if transfers == [] then size
    else if transfers[0] > size then size
    else if transfers[0] < -2 then -2
    else transfers[0]
  }

  function Rest(transfers: seq<int>): seq<int> {
    if transfers == [] then [] else transfers[1..]
  }

  /**
   * How a whole write goes: to its end (1), or to the transfer that stopped it; what it moved, and the
   * transfers left.
   */
  datatype Course = Course(end: int, moved: nat, left: seq<int>)

  function CourseOf(transfers: seq<int>, size: nat): (c: Course)
    ensures c.moved <= size && -2 <= c.end <= 1 && (c.end == 1 <==> c.moved == size)
    decreases size
  {
    var n := Outcome(transfers, size);
    if size == 0 then Course(1, 0, transfers)
    else if n <= 0 then Course(n, 0, Rest(transfers))
    else After(n, CourseOf(Rest(transfers), size - n))
  }

  /** With n bytes moved before it. */
  function After(n: nat, c: Course): Course {
    c.(moved := n + c.moved)
  }

  /** How the file of so many bytes behind a head goes: it is not begun unless the head went to its end. */
  function FileThen(head: Course, size: nat): (f: Course)
    ensures f.moved <= size
  {
    if head.end == 1 then CourseOf(head.left, size) else head.(moved := 0)
  }

  lemma CourseNext(transfers: seq<int>, size: nat, before: nat)
    requires size > 0
    ensures var n := Outcome(transfers, size);
      After(before, CourseOf(transfers, size)) ==
        if n <= 0 then Course(n, before, Rest(transfers)) else After(before + n, CourseOf(Rest(transfers), size - n))
  {
  }

  lemma NothingMoves(transfers: seq<int>)
    ensures CourseOf(transfers, 0) == Course(1, 0, transfers)
  {
  }

  function NextAction(actions: seq<Action>): Action {
    if actions == [] then Defer else actions[0]
  }

  /** What a scripted condition says next, when it says anything. */
  function Said(script: seq<bool>, otherwise: bool): bool {
    if script == [] then otherwise else script[0]
  }

  /**
   * What the next read of so many bytes at most comes to, and what is there after it; an empty piece is
   * nothing yet.
   */
  function ReadNext(arrivals: seq<ReadOutcome>, size: nat): (r: ReadOutcome)
    requires size > 0
    ensures r.Data? ==> 0 < |r.bytes| <= size
  {
    if arrivals == [] || arrivals[0] == Data("") then Again
    else if arrivals[0].Data? && |arrivals[0].bytes| > size then Data(arrivals[0].bytes[..size])
    else arrivals[0]
  }

  function ReadBytes(r: ReadOutcome): string {
    if r.Data? then r.bytes else ""
  }

  function ReadRest(arrivals: seq<ReadOutcome>, size: nat): seq<ReadOutcome> {
    if arrivals == [] then []
    else if arrivals[0].Data? && |arrivals[0].bytes| > size then [Data(arrivals[0].bytes[size..])] + arrivals[1..]
    else arrivals[1..]
  }

  /** The bytes that can be read before a read finds nothing, or the end. */
  function Waiting(arrivals: seq<ReadOutcome>): string {
    if arrivals == [] || !arrivals[0].Data? || arrivals[0].bytes == "" then ""
    else arrivals[0].bytes + Waiting(arrivals[1..])
  }

  /** What is there after the read that found nothing, or the end. */
  function Beyond(arrivals: seq<ReadOutcome>): (rest: seq<ReadOutcome>)
    ensures arrivals != [] ==> |rest| < |arrivals|
  {
    if arrivals == [] then []
    else if arrivals[0].Data? && arrivals[0].bytes != "" then Beyond(arrivals[1..])
    else arrivals[1..]
  }

  /** All the bytes that ever come. */
  function Bytes(arrivals: seq<ReadOutcome>): string {
    if arrivals == [] then "" else (if arrivals[0].Data? then arrivals[0].bytes else "") + Bytes(arrivals[1..])
  }

  /** The reads still possible, at most. */
  function Reads(arrivals: seq<ReadOutcome>): nat {
    if arrivals == [] then 0 else 1 + (if arrivals[0].Data? then |arrivals[0].bytes| else 0) + Reads(arrivals[1..])
  }

  lemma ReadTakes(arrivals: seq<ReadOutcome>, size: nat)
    requires size > 0
    ensures var r, rest := ReadNext(arrivals, size), ReadRest(arrivals, size);
      && Bytes(arrivals) == (if r.Data? then r.bytes else "") + Bytes(rest)
      && if r.Data? then
           && Waiting(arrivals) == r.bytes + Waiting(rest) && Beyond(arrivals) == Beyond(rest)
           && Reads(rest) < Reads(arrivals)
         else
           Waiting(arrivals) == "" && Beyond(arrivals) == rest
  {
    if arrivals != [] && arrivals[0].Data? && |arrivals[0].bytes| > size {
      var bytes, rest := arrivals[0].bytes, ReadRest(arrivals, size);
      assert rest[0] == Data(bytes[size..]) && rest[1..] == arrivals[1..];
      assert bytes == bytes[..size] + bytes[size..];
      Strings3(bytes[..size], bytes[size..], Waiting(arrivals[1..]));
      Strings3(bytes[..size], bytes[size..], Bytes(arrivals[1..]));
    }
  }

  /** First what can be read at once, then what comes later. */
  lemma {:induction false} BytesWaiting(arrivals: seq<ReadOutcome>)
    ensures Bytes(arrivals) == Waiting(arrivals) + Bytes(Beyond(arrivals))
  {
    if arrivals != [] && arrivals[0].Data? && arrivals[0].bytes != "" {
      BytesWaiting(arrivals[1..]);
      Strings3(arrivals[0].bytes, Waiting(arrivals[1..]), Bytes(Beyond(arrivals[1..])));
    }
  }

  /** Every transfer moves something, the client does not leave, and the loop does not let go. */
  ghost predicate Eager(transfers: seq<int>, arrivals: seq<ReadOutcome>, registered: seq<bool>) {
    && (forall n :: n in transfers ==> n > 0) && (forall r :: r in arrivals ==> !r.Eof?)
    && (forall ok :: ok in registered ==> ok)
  }

  lemma Tails<T>(s: seq<T>)
    requires s != []
    ensures s[0] in s && forall x :: x in s[1..] ==> x in s
  {
    forall x | x in s[1..]
      ensures x in s
    {
      var i :| 0 <= i < |s[1..]| && s[1..][i] == x;
      assert s[i+1] == x;
    }
  }

  lemma EagerTransfer(transfers: seq<int>, arrivals: seq<ReadOutcome>, registered: seq<bool>, size: nat)
    requires Eager(transfers, arrivals, registered) && size > 0
    ensures Outcome(transfers, size) > 0 && Eager(Rest(transfers), arrivals, registered)
  {
    if transfers != [] {
      Tails(transfers);
    }
  }

  lemma EagerRead(transfers: seq<int>, arrivals: seq<ReadOutcome>, registered: seq<bool>, size: nat)
    requires Eager(transfers, arrivals, registered) && size > 0
    ensures !ReadNext(arrivals, size).Eof? && Eager(transfers, ReadRest(arrivals, size), registered)
  {
    if arrivals != [] {
      Tails(arrivals);
    }
  }

  lemma EagerAsked(transfers: seq<int>, arrivals: seq<ReadOutcome>, registered: seq<bool>)
    requires Eager(transfers, arrivals, registered)
    ensures Said(registered, true) && (registered != [] ==> Eager(transfers, arrivals, registered[1..]))
  {
    if registered != [] {
      Tails(registered);
    }
  }

  /** What handlers have done. */
  function Done(calls: seq<(string, Action)>): (a: seq<Action>)
    ensures |a| == |calls| && forall i :: 0 <= i < |a| ==> a[i] == calls[i].1
  {
    seq(|calls|, i requires 0 <= i < |calls| => calls[i].1)
  }

  lemma ScriptGoesOn(calls: seq<(string, Action)>, request: string, actions: seq<Action>)
    ensures var a, rest := NextAction(actions), if actions == [] then [] else actions[1..];
      Done(calls) + actions <= Done(calls + [(request, a)]) + rest
  {
    var a := NextAction(actions);
    assert Done(calls + [(request, a)]) == Done(calls) + [a];
  }

  class Environment {
    var transfers: seq<int>
    var arrivals: seq<ReadOutcome>
    var actions: seq<Action>
    var registered: seq<bool>
    var waiting: seq<bool>

    var sent: string                     // every byte the peer was given
    var received: string                 // every byte taken from the peer
    var calls: seq<(string, Action)>     // every request a handler was given, and what it did
    var stalled: bool                    // a transfer moved nothing, and reported no error
    var blocked: nat                     // transfers that would have blocked
    var gone: nat                        // signs that the peer, or the loop, has let the connection go

    ghost const eager: bool              // nothing is in the way, ever
    ghost const whole: string            // the input, from its first byte to its last
    ghost const script: seq<Action>      // what handlers are to do

    constructor (transfers: seq<int>, arrivals: seq<ReadOutcome>, actions: seq<Action>, registered: seq<bool>,
                 waiting: seq<bool>)
      ensures this.transfers == transfers && this.arrivals == arrivals && this.actions == actions
      ensures this.registered == registered && this.waiting == waiting
      ensures eager == Eager(transfers, arrivals, registered) && whole == Bytes(arrivals) && script == actions
      ensures Unused()
    {
      this.transfers, this.arrivals, this.actions, this.registered, this.waiting := transfers, arrivals, actions,
        registered, waiting;
      sent, received, calls, stalled, blocked, gone := "", "", [], false, 0, 0;
      eager, whole, script := Eager(transfers, arrivals, registered), Bytes(arrivals), actions;
      new;
      assert Done([]) == [];
    }

    /** What was read and what is still to come are the input, as with handlers; an eager environment stays so. */
    ghost predicate Promised()
      reads `transfers, `arrivals, `actions, `registered, `received, `calls, `stalled, `blocked, `gone
    {
      && received + Bytes(arrivals) == whole && script <= Done(calls) + actions
      && (eager ==> Eager(transfers, arrivals, registered) && !stalled && blocked == 0 && gone == 0)
    }

    ghost predicate Unused()
      reads this
    {
      sent == "" && received == "" && calls == [] && !stalled && blocked == 0 && gone == 0 && Promised()
    }

    /** One send or sendfile call. */
    method Transfer(data: string) returns (n: int)
      requires data != ""
      modifies this`transfers, this`sent, this`stalled, this`blocked, this`gone
      ensures n == Outcome(old(transfers), |data|) && transfers == Rest(old(transfers))
      ensures sent == old(sent) + (if n > 0 then data[..n] else "")
      ensures stalled == (old(stalled) || n == 0) && gone == old(gone) + if n == -2 then 1 else 0
      ensures blocked == old(blocked) + (if n == -1 then 1 else 0) && (old(Promised()) ==> Promised())
    {
      hide Eager, Outcome, Bytes;
      if eager && Promised() { EagerTransfer(transfers, arrivals, registered, |data|); }
      n := Outcome(transfers, |data|);
      transfers := Rest(transfers);
      if n > 0 {
        sent := sent + data[..n];
      }
      stalled := stalled || n == 0;
      blocked := blocked + if n == -1 then 1 else 0;
      gone := gone + if n == -2 then 1 else 0;
    }

    method Read(size: nat) returns (r: ReadOutcome)
      requires size > 0
      modifies this`arrivals, this`received, this`gone
      ensures r == ReadNext(old(arrivals), size) && arrivals == ReadRest(old(arrivals), size)
      ensures received == old(received) + (if r.Data? then r.bytes else "")
      ensures gone == old(gone) + (if r.Eof? then 1 else 0) && (old(Promised()) ==> Promised())
    {
      hide Eager, ReadNext, ReadRest, Bytes, Waiting, Beyond, Reads;
      ReadTakes(arrivals, size);
      if eager && Promised() { EagerRead(transfers, arrivals, registered, size); }
      r := ReadNext(arrivals, size);
      arrivals := ReadRest(arrivals, size);
      if r.Data? {
        received := received + r.bytes;
      }
      gone := gone + if r.Eof? then 1 else 0;
    }

    method Handle(request: string) returns (a: Action)
      modifies this`actions, this`calls
      ensures a == NextAction(old(actions)) && calls == old(calls) + [(request, a)]
      ensures actions == (if old(actions) == [] then [] else old(actions)[1..]) && (old(Promised()) ==> Promised())
    {
      hide Eager, Bytes, Done;
      ScriptGoesOn(calls, request, actions);
      a := NextAction(actions);
      actions := if actions == [] then [] else actions[1..];
      calls := calls + [(request, a)];
    }

    /** Sets the mask of the descriptor; false when the loop no longer has it. */
    method ModifyIo(m: Mask) returns (ok: bool)
      modifies this`registered, this`gone
      ensures gone == old(gone) + (if ok then 0 else 1) && (old(Promised()) ==> Promised())
      ensures ok == Said(old(registered), true) && (old(registered) == [] ==> registered == [])
    {
      hide Eager, Bytes;
      if eager && Promised() { EagerAsked(transfers, arrivals, registered); }
      ok := Said(registered, true);
      registered := if registered == [] then [] else registered[1..];
      gone := gone + if ok then 0 else 1;
    }

    /** Whether the socket holds input that was not read yet. */
    method Peek() returns (some: bool)
      modifies this`waiting
      ensures some == Said(old(waiting), false)
    {
      some := Said(waiting, false);
      waiting := if waiting == [] then [] else waiting[1..];
    }
  }

  /** The event asks for a read. */
  predicate Signs(e: Events) {
    e.input || e.peer || e.hangup || e.error
  }

  // ─── Answers ───────────────────────────────────────────────────────────────

  datatype Answer =
    | Reply(resp: Response)
    | File(mime: string, content: string, close: bool)

  function FileHead(mime: string, size: nat, close: bool): string {
    "HTTP/1.1 200 OK\r\n" + ("Content-Type: " + mime + "\r\n") + ("Content-Length: " + Decimal(size) + "\r\n")
      + (if close then "Connection: close\r\n" else "") + "\r\n"
  }

  /** The part of an answer that may be buffered: a file's content never is. */
  function Buffered(a: Answer): string {
    match a
    case Reply(r) => Serialized(r)
    case File(mime, content, close) => FileHead(mime, |content|, close)
  }

  function Wire(a: Answer): string {
    Buffered(a) + (if a.File? then a.content else "")
  }

  predicate Closes(a: Answer) {
    match a
    case Reply(r) => SaysClose(r)
    case File(_, _, close) => close
  }

  /** The byte stream a peer that reads to the end gets for these answers. */
  function Stream(answers: seq<Answer>): string {
    if answers == [] then "" else Stream(answers[..|answers|-1]) + Wire(answers[|answers|-1])
  }

  lemma StreamAppend(answers: seq<Answer>, a: Answer)
    ensures Stream(answers + [a]) == Stream(answers) + Wire(a)
  {
    assert (answers + [a])[..|answers|] == answers;
  }

  function NotFound(text: string): Response {
    Set(Response(404, "Not Found", [], text, false), "Content-Type", "text/plain")
  }

  function BadRequest400(error: string): Response {
    Response(400, "Bad Request", [],
      "{\"type\":\"about:blank\",\"title\":\"Bad Request\",\"status\":400,"
      + "\"detail\":\"the request could not be parsed (" + error + ")\"}",
      false)
  }

  function BadRequest(error: string): Response {
    Set(SetClose(BadRequest400(error)), "Content-Type", "application/problem+json")
  }

  lemma BadRequestCloses(error: string)
    ensures SaysClose(BadRequest(error))
  {
    var plain := BadRequest400(error);
    SetCloseHeaders(plain);
    LowerNames();
    ReplacedAbsent([Header("Connection", "close")], "Content-Type", SafePrefix("application/problem+json"));
    assert BadRequest(error).headers[0] == Header("Connection", "close");
  }

  /** Marked with the close header where no answer is to follow. */
  function Marked(r: Response, last: bool): Response {
    if last && !SaysClose(r) then SetClose(r) else r
  }

  lemma MarkedCloses(r: Response, last: bool)
    ensures last || SaysClose(r) ==> SaysClose(Marked(r, last))
  {
    SetCloseSaysClose(r);
  }

  /** The mark is the only thing it changes. */
  lemma MarkedOnly(r: Response, last: bool)
    ensures var m := Marked(r, last);
      && m.code == r.code && m.text == r.text && m.body == r.body && m.suppress == r.suppress
      && (forall h :: h in m.headers ==> h in r.headers || h == Header("Connection", "close"))
      && (forall h :: h in r.headers && h.name != "Connection" ==> h in m.headers) && (!last ==> m == r)
  {
    SetCloseHeaders(r);
    ReplacedHeaders(r.headers, "Connection", "close");
    OthersStay(r.headers, "Connection", "close");
  }

  lemma {:induction false} OthersStay(hs: seq<Header>, name: string, value: string)
    ensures forall h :: h in hs && h.name != name ==> h in Replaced(hs, name, value)
  {
    if hs != [] {
      OthersStay(hs[1..], name, value);
    }
  }

  lemma SafeTypes()
    ensures SafePrefix("text/plain") == "text/plain"
    ensures SafePrefix("application/problem+json") == "application/problem+json"
  {
    assert SafeText("text/plain") && SafeText("application/problem+json");
    hide SafeText, SafePrefix;
    SafeWhole("text/plain");
    SafeWhole("application/problem+json");
  }

  lemma SafeWhole(s: string)
    requires SafeText(s)
    ensures SafePrefix(s) == s
  {
    assert s[..|s|] == s;
    SafePrefixAt(s, |s|);
  }

  /** The 404, header by header. */
  lemma NotFoundSays(text: string)
    ensures NotFound(text) == Response(404, "Not Found", [Header("Content-Type", "text/plain")], text, false)
  {
    hide SafePrefix, Token, Set;
    SafeTypes();
    TypeIsToken();
    OneMore(Response(404, "Not Found", [], text, false), "Content-Type", "text/plain");
  }

  /** The 400. */
  lemma BadRequestSays(error: string)
    ensures BadRequest(error) == BadRequest400(error).(headers :=
              [Header("Connection", "close"), Header("Content-Type", "application/problem+json")])
    ensures BadRequest(error).code == 400 && BadRequest(error).text == "Bad Request" && !BadRequest(error).suppress
  {
    hide BadRequest400, SafePrefix, SetClose, Set, Token;
    var plain := BadRequest400(error);
    BareRefusal(error);
    SafeTypes();
    TypeIsToken();
    SetCloseHeaders(plain);
    NoHeader("Connection", "close");
    OneMore(SetClose(plain), "Content-Type", "application/problem+json");
  }

  lemma TypeIsToken()
    ensures Token("Content-Type")
  {
  }

  lemma BareRefusal(error: string)
    ensures var r := BadRequest400(error);
      r.headers == [] && r.code == 400 && r.text == "Bad Request" && !r.suppress
  {
  }

  lemma NoHeader(name: string, value: string)
    ensures Replaced([], name, value) == [Header(name, value)]
  {
  }

  /** A header of a new name goes behind the others. */
  lemma OneMore(r: Response, name: string, value: string)
    requires Token(name) && SafePrefix(value) == value && forall j :: 0 <= j < |r.headers| ==> r.headers[j].name != name
    ensures Set(r, name, value) == r.(headers := r.headers + [Header(name, value)])
  {
    ReplacedAbsent(r.headers, name, value);
  }

  // ── What the client reads ──

  /** No line of it can be cut by what a module put in. */
  ghost predicate Readable(a: Answer) {
    match a
    case Reply(r) => WellFormed(r)
    case File(mime, _, _) => SafeText(mime)
  }

  /** ... and it carries its body, and one length. */
  ghost predicate Plain(a: Answer) {
    a.Reply? ==> !a.resp.suppress && forall h :: h in a.resp.headers ==> Lower(h.name) != "content-length"
  }

  function MimeLines(mime: string, size: nat, close: bool): seq<Header> {
    [Header("Content-Type", mime), Header("Content-Length", Decimal(size))]
      + if close then [Header("Connection", "close")] else []
  }

  lemma FileLines(mime: string, size: nat, close: bool)
    ensures HeaderLines(MimeLines(mime, size, close)) ==
            ("Content-Type: " + mime + "\r\n") + (("Content-Length: " + Decimal(size) + "\r\n")
                                                 + (if close then "Connection: close\r\n" else ""))
  {
    var mimeLine, length, end := Header("Content-Type", mime), Header("Content-Length", Decimal(size)),
      Header("Connection", "close");
    assert "Content-Type" + ": " == "Content-Type: " && "Content-Length" + ": " == "Content-Length: ";
    assert HeaderLine(mimeLine) == "Content-Type: " + mime + "\r\n";
    assert HeaderLine(length) == "Content-Length: " + Decimal(size) + "\r\n";
    hide Decimal;
    if close {
      assert "Connection" + ": " + "close" + CRLF == "Connection: close\r\n";
      assert HeaderLines([end]) == HeaderLine(end) + HeaderLines([]);
      assert MimeLines(mime, size, close)[1..] == [length, end] && [length, end][1..] == [end];
    } else {
      assert HeaderLines([length]) == HeaderLine(length) + HeaderLines([]);
      assert MimeLines(mime, size, close)[1..] == [length];
    }
  }

  lemma SafeMimeLines(mime: string, size: nat, close: bool)
    requires SafeText(mime)
    ensures SafeText("200") && SafeText("OK") && forall i :: 0 <= i < |"200"| ==> "200"[i] != ' '
    ensures var hs := MimeLines(mime, size, close);
      forall i :: 0 <= i < |hs| ==> Token(hs[i].name) && SafeText(hs[i].value)
  {
    DecimalText(size);
    assert Token("Content-Type") && Token("Content-Length") && Token("Connection") && SafeText("close");
  }

  /** The head, what follows it included, as its lines. */
  lemma FileText(mime: string, size: nat, close: bool, rest: string)
    ensures FileHead(mime, size, close) + rest ==
            "HTTP/1.1 " + ("200" + " " + "OK") + CRLF + (HeaderLines(MimeLines(mime, size, close)) + (CRLF + rest))
  {
    FileLines(mime, size, close);
    var start, a, b, c := "HTTP/1.1 200 OK\r\n", "Content-Type: " + mime + "\r\n",
      "Content-Length: " + Decimal(size) + "\r\n", if close then "Connection: close\r\n" else "";
    assert start == "HTTP/1.1 " + ("200" + " " + "OK") + CRLF;
    assert FileHead(mime, size, close) == start + a + b + c + CRLF;
    hide FileHead, HeaderLines, Decimal;
    Pieces(start, a, b, c, CRLF, rest);
  }

  lemma Pieces(start: string, a: string, b: string, c: string, end: string, rest: string)
    ensures start + a + b + c + end + rest == start + ((a + (b + c)) + (end + rest))
  {
    Strings3(start + a + b + c, end, rest);
    Strings3(start + a, b, c);
    Strings3(start, a, b + c);
    Strings3(start, a + (b + c), end + rest);
  }

  /**
   * A file answer, with whatever follows it, is a 200 with its type, its length, its end perhaps, and then
   * the rest.
   */
  lemma FileIsRead(mime: string, content: string, close: bool, more: string)
    requires SafeText(mime)
    ensures ReadMessage(Wire(File(mime, content, close)) + more) ==
            Some(Message("200", "OK", [Header("Content-Type", mime), Header("Content-Length", Decimal(|content|))]
                         + (if close then [Header("Connection", "close")] else []), content + more))
    ensures Value(Decimal(|content|)) == |content|
  {
    hide FileHead, HeaderLines, Decimal, ReadMessage, Token, SafeText, Value, Wire, Buffered;
    DecimalValue(|content|);
    FileWire(mime, content, close);
    FileText(mime, |content|, close, content + more);
    SafeMimeLines(mime, |content|, close);
    ReadBackParts("200", "OK", MimeLines(mime, |content|, close), content + more);
    Strings3(FileHead(mime, |content|, close), content, more);
  }

  /** A response, with whatever follows it. */
  lemma ReplyIsRead(r: Response, more: string)
    requires WellFormed(r)
    ensures ReadMessage(Wire(Reply(r)) + more) ==
            Some(Message(Decimal(r.code), r.text, SentHeaders(r), SentBody(r) + more))
  {
    DecimalText(r.code);
    DecimalText(|r.body|);
    assert Token("Content-Length");
    ReplyWire(r);
    hide ReadMessage, HeaderLines, Decimal, Token, SafeText, Wire;
    ReadBackParts(Decimal(r.code), r.text, SentHeaders(r), SentBody(r) + more);
    Strings3(CRLF, SentBody(r), more);
    Strings3(HeaderLines(SentHeaders(r)), CRLF + SentBody(r), more);
    Strings3(StatusLine(r) + CRLF, HeaderLines(SentHeaders(r)) + (CRLF + SentBody(r)), more);
    assert StatusLine(r) == "HTTP/1.1 " + (Decimal(r.code) + " " + r.text);
  }

  /** The length the first header of that name says. */
  function LengthSaid(hs: seq<Header>): int {
    if hs == [] then 0 else if Lower(hs[0].name) == "content-length" then Value(hs[0].value) else LengthSaid(hs[1..])
  }

  lemma {:induction false} LengthFound(hs: seq<Header>, n: nat)
    requires forall h :: h in hs ==> Lower(h.name) != "content-length"
    ensures LengthSaid(hs + [Header("Content-Length", Decimal(n))]) == n
  {
    if hs == [] {
      DecimalValue(n);
      assert Lower("Content-Length") == "content-length";
    } else {
      LengthFound(hs[1..], n);
      assert (hs + [Header("Content-Length", Decimal(n))])[1..] == hs[1..] + [Header("Content-Length", Decimal(n))];
    }
  }

  lemma PlainLength(r: Response)
    requires Plain(Reply(r))
    ensures SentBody(r) == r.body && LengthSaid(SentHeaders(r)) == |r.body|
  {
    hide Decimal, LengthSaid;
    LengthFound(r.headers, |r.body|);
  }

  lemma MimeLength(mime: string, size: nat, close: bool)
    ensures LengthSaid(MimeLines(mime, size, close)) == size
  {
    DecimalValue(size);
    assert Lower("Content-Type") != "content-length" && Lower("Content-Length") == "content-length";
    hide Decimal, Value;
    assert MimeLines(mime, size, close)[1..][0] == Header("Content-Length", Decimal(size));
  }

  /** A client that reads so many answers, each as far as its head says, and then the end. */
  function ReadAnswers(s: string, n: nat): Option<seq<Message>>
    decreases n
  {
    if n == 0 then if s == "" then Some([]) else None
    else match ReadMessage(s)
      case None => None
      case Some(m) =>
        var size := LengthSaid(m.headers);
        if !(0 <= size <= |m.body|) then None
        else match ReadAnswers(m.body[size..], n - 1)
          case None => None
          case Some(ms) => Some([m.(body := m.body[..size])] + ms)
  }

  /** One answer is read as itself, and the client is at the start of what follows it. */
  lemma AnswerIsRead(a: Answer, more: string)
    requires Readable(a) && Plain(a)
    ensures ReadMessage(Wire(a)).Some?
    ensures var m := ReadMessage(Wire(a)).value;
      && LengthSaid(m.headers) == |m.body| && ReadMessage(Wire(a) + more) == Some(m.(body := m.body + more))
  {
    hide ReadMessage, Wire, Decimal, LengthSaid, Token, SafeText;
    Strings3(Wire(a), "", "");
    match a
    case Reply(r) =>
      Strings3(SentBody(r), "", "");
      ReplyIsRead(r, more);
      ReplyIsRead(r, "");
      PlainLength(r);
    case File(mime, content, close) =>
      Strings3(content, "", "");
      FileIsRead(mime, content, close, more);
      FileIsRead(mime, content, close, "");
      MimeLength(mime, |content|, close);
  }

  lemma EmptyStream()
    ensures Stream([]) == ""
  {
  }

  lemma {:induction false} StreamFront(answers: seq<Answer>)
    requires answers != []
    ensures Stream(answers) == Wire(answers[0]) + Stream(answers[1..])
  {
    hide Wire;
    var front, last := answers[..|answers|-1], answers[|answers|-1];
    if front == [] {
      assert answers[1..] == [];
      Strings3(Wire(last), "", "");
    } else {
      StreamFront(front);
      StreamAppend(front[1..], last);
      assert front[1..] + [last] == answers[1..];
      Strings3(Wire(answers[0]), Stream(front[1..]), Wire(last));
    }
  }

  /** What the peer was given is read as the answers, each whole and in order. */
  lemma {:induction false} StreamIsRead(answers: seq<Answer>)
    requires forall a :: a in answers ==> Readable(a) && Plain(a)
    ensures ReadAnswers(Stream(answers), |answers|).Some?
    ensures var ms := ReadAnswers(Stream(answers), |answers|).value;
      |ms| == |answers| && forall i :: 0 <= i < |ms| ==> ReadMessage(Wire(answers[i])) == Some(ms[i])
  {
    hide ReadMessage, Wire, Stream, LengthSaid, Readable, Plain;
    if answers == [] {
      EmptyStream();
    } else {
      StreamFront(answers);
      AnswerIsRead(answers[0], Stream(answers[1..]));
      StreamIsRead(answers[1..]);
    }
  }

  /** The last answer is read as one that says so. */
  lemma LastIsRead(a: Answer)
    requires Readable(a) && Closes(a)
    ensures ReadMessage(Wire(a)).Some? && ReadsClose(ReadMessage(Wire(a)).value)
  {
    match a
    case Reply(r) =>
      ReplyWire(r);
      CloseIsRead(r);
    case File(mime, content, close) =>
      FileIsRead(mime, content, close, "");
      LowerNames();
      hide ReadMessage, Wire, Decimal;
      Strings3(Wire(a), "", "");
      assert ReadMessage(Wire(a)).value.headers[2] == Header("Connection", "close");
  }

  /** What a file request is answered with. */
  function FileAnswer(source: FileSource, mime: string, last: bool): Answer {
    match source
    case Missing => Reply(Marked(NotFound("file not readable"), last))
    case NotRegular => Reply(Marked(NotFound("not a regular file"), last))
    case Regular(content) => File(mime, content, last)
  }

  /** The handler's answer, as the last one on the connection or as any other. */
  predicate IsAnswer(action: Action, a: Answer, last: bool) {
    match action
    case Fill(r) => a == Reply(if last then SetClose(r) else r)
    case SendNow(r) => a == Reply(if last then SetClose(r) else r)
    case SendFileNow(source, mime) => a == FileAnswer(source, mime, last)
    case Defer => false
  }

  /** What answers request i: what its handler did, or, if it deferred, what the module did later. */
  function ActionOf(calls: seq<(string, Action)>, late: map<nat, Action>, i: nat): Action
    requires i < |calls|
  {
    if calls[i].1.Defer? && i in late then late[i] else calls[i].1
  }

  /** The answer is the one the action gives; only a last one may have been marked. */
  predicate Fits(action: Action, a: Answer, last: bool) {
    IsAnswer(action, a, false) || (last && IsAnswer(action, a, true))
  }

  /** The input is whole requests that keep the connection, and each is answered before its handler returns. */
  predicate Prompt(f: Framing, input: string, script: seq<Action>) {
    var p := Parse(f.judge, input);
    && !p.bad && |p.requests| <= |script|
    && forall i :: 0 <= i < |p.requests| ==>
      f.keepAlive(p.requests[i]) && !f.websocket(p.requests[i]) && !script[i].Defer?
  }

  // ─── What the connection keeps ─────────────────────────────────────────────
  //
  // Nine relations between the values of its fields and its history: the requests dispatched, the
  // answers started, the input the parser has taken. Each step below states what it does to them.

  /** Accepted for sending and not gone: the buffered tail, then the rest of the file. */
  function Unsent(buf: string, pos: nat, fileOpen: bool, data: string, remaining: nat): string {
    (if pos <= |buf| then buf[pos..] else "")
      + (if fileOpen && remaining <= |data| then data[|data|-remaining..] else "")
  }

  /**
   * Sent and unsent together are the answers, in order, but for the bytes given up while the connection
   * stayed open: those of a transfer that moved nothing. A connection given up may still push a file
   * behind a tail it dropped (strayed). A graceful end leaves nothing unsaid.
   */
  ghost predicate WireInv(answers: seq<Answer>, met: nat, sent: string, unsent: string, closed: bool, graceful: bool,
                          lost: nat, strayed: bool, stalled: bool)
  {
    && (!closed ==> |sent| + |unsent| + lost == |Stream(answers)| && (stalled <==> lost > 0))
    && (!closed && lost == 0 ==> sent + unsent == Stream(answers))
    && (lost == 0 && !strayed ==> sent <= Stream(answers))
    && (lost > 0 ==> stalled)
    && (strayed ==> closed && !graceful)
    && (graceful ==> |answers| == met && (lost == 0 ==> sent == Stream(answers)))
  }

  /** The tail is bounded by the high mark and one answer; the throttle works with hysteresis. */
  ghost predicate MemoryInv(answers: seq<Answer>, buffered: int, throttled: bool, fileOpen: bool, awaiting: bool,
                            closed: bool) {
    && (answers == [] ==> buffered == 0)
    && (answers != [] ==> buffered <= HIGH_WATER + |Buffered(answers[|answers|-1])|)
    && (awaiting ==> buffered <= HIGH_WATER)
    && (!closed && buffered > HIGH_WATER && !throttled ==>
          fileOpen && answers != [] && |Buffered(answers[|answers|-1])| > HIGH_WATER)
    && (!closed && throttled ==> buffered > LOW_WATER)
  }

  /** One request in work: how many were met, how many answers started, and which comes next. */
  ghost predicate TurnInv(met: nat, answers: nat, refused: bool, awaiting: bool, handling: bool, fileOpen: bool,
                          closed: bool, deferred: set<nat>)
  {
    && answers <= met <= answers + 1
    && (handling ==> !awaiting)
    && (awaiting ==> !fileOpen && !refused && deferred == {answers} && met == answers + 1)
    && (refused && !handling ==> met == answers)
    && (!closed && !awaiting ==> deferred == {})
    && (!closed && !handling ==> (awaiting <==> met == answers + 1))
    && (!closed && fileOpen ==> met == answers)
  }

  /** A request that ends the connection is the last one, and so is its answer. */
  ghost predicate LastInv(keepAlive: string -> bool, requests: seq<string>, answers: seq<Answer>, refused: bool,
                          ending: bool, closing: bool)
  {
    && (forall i :: 0 <= i < |requests| - 1 ==> keepAlive(requests[i]))
    && (requests != [] && !keepAlive(requests[|requests|-1]) ==> ending && closing)
    && (forall i :: 0 <= i < |requests| && i < |answers| && !keepAlive(requests[i]) ==> Closes(answers[i]))
    && (refused && |answers| == |requests| + 1 ==> Closes(answers[|answers|-1]))
    && (refused ==> ending)
  }

  /** The newest request does not keep the connection, or wanted an upgrade that was refused. */
  predicate Ends(framing: Framing, requests: seq<string>) {
    requests != [] && (!framing.keepAlive(requests[|requests|-1]) || framing.websocket(requests[|requests|-1]))
  }

  /**
   * Reading stops only for a reason, and then the connection is to close; before that it is to close only for
   * the request at work.
   */
  ghost predicate EndInv(framing: Framing, requests: seq<string>, refused: bool, draining: bool, stopReading: bool,
                         closing: bool, handling: bool, closed: bool)
  {
    !closed ==>
      && (stopReading ==> closing && (draining || refused || Ends(framing, requests)))
      && (closing && !stopReading ==> handling && requests != [] && !framing.keepAlive(requests[|requests|-1]))
  }

  /** After stop_keep_alive: at most one more answer, and it says so. */
  ghost predicate DrainInv(draining: bool, answers: seq<Answer>, met: nat, mark: nat, ending: bool) {
    draining ==>
      && mark <= |answers| && met <= mark + 1
      && (!ending ==> met <= mark)
      && (forall i :: mark <= i < |answers| ==> Closes(answers[i]))
  }

  /**
   * Every request was given to its handler, once and in order, and is answered with what that handler, or
   * later its module, gave.
   */
  ghost predicate WorkInv(requests: seq<string>, answers: seq<Answer>, calls: seq<(string, Action)>,
                          late: map<nat, Action>, met: nat, refused: bool, error: string, ending: bool, handling: bool,
                          awaiting: bool)
  {
    && |calls| <= |requests| <= |calls| + 1 && (!handling || refused ==> |calls| == |requests|)
    && (forall i :: 0 <= i < |calls| ==> calls[i].0 == requests[i])
    && (awaiting ==> |answers| < |calls| && calls[|answers|].1.Defer?)
    && (forall i :: 0 <= i < |calls| && i < |answers| ==>
          Fits(ActionOf(calls, late, i), answers[i], ending && met == |answers| && i == |answers| - 1))
    && (refused && |answers| == |requests| + 1 ==> answers[|requests|] == Reply(BadRequest(error)))
  }

  /** The dispatched requests are the parse of the input taken, a prefix of what was read. */
  ghost predicate InputInv(judge: string -> Verdict, requests: seq<string>, partial: string, seen: string,
                           received: string, refused: bool)
  {
    && Parse(judge, seen) == Parsed(requests, partial, false)
    && seen <= received
    && (refused ==> |seen| < |received| && Parse(judge, received[..|seen|+1]).bad)
  }

  /** Every byte read is taken or held; no more than one read is held. */
  ghost predicate PendingInv(pendingIn: string, seen: string, received: string, busy: bool) {
    |pendingIn| <= READ_SIZE && (!busy ==> received == seen + pendingIn)
  }

  /** All of that about the requests, their handlers and their answers. */
  ghost predicate PipelineInv(f: Framing, requests: seq<string>, answers: seq<Answer>, calls: seq<(string, Action)>,
                              late: map<nat, Action>, refused: bool, error: string, awaiting: bool, handling: bool,
                              stop: bool, closing: bool, closed: bool, fileOpen: bool, draining: bool, mark: nat,
                              deferred: set<nat>)
  {
    var met, ending := Met(|requests|, refused), stop || handling || closed;
    && TurnInv(met, |answers|, refused, awaiting, handling, fileOpen, closed, deferred)
    && LastInv(f.keepAlive, requests, answers, refused, ending, closed || closing)
    && EndInv(f, requests, refused, draining, stop, closing, handling, closed)
    && DrainInv(draining, answers, met, mark, ending)
    && WorkInv(requests, answers, calls, late, met, refused, error, ending, handling, awaiting)
  }

  /** ... and about the input. */
  ghost predicate IntakeInv(judge: string -> Verdict, requests: seq<string>, partial: string, seen: string,
                            received: string, refused: bool, pendingIn: string, closed: bool, stop: bool,
                            dispatching: bool)
  {
    && InputInv(judge, requests, partial, seen, received, refused)
    && PendingInv(pendingIn, seen, received, closed || stop || dispatching)
  }

  // ── What is unsent ──

  lemma UnsentTail(buf: string, pos: nat, data: string, remaining: nat)
    requires pos <= |buf|
    ensures Unsent(buf, pos, false, data, remaining) == buf[pos..]
  {
  }

  lemma UnsentAppend(buf: string, pos: nat, more: string, after: string, data: string, remaining: nat)
    requires pos <= |buf|
    ensures Unsent(buf, pos, false, data, remaining) + (more + after)
            == Unsent(buf + more, pos, false, data, remaining) + after
  {
    assert (buf + more)[pos..] == buf[pos..] + more;
  }

  lemma UnsentFile(buf: string, pos: nat, data: string, remaining: nat, content: string)
    requires pos <= |buf|
    ensures Unsent(buf, pos, true, content, |content|) == Unsent(buf, pos, false, data, remaining) + content
  {
  }

  /** Moving n bytes of the tail, the file behind it untouched. */
  lemma UnsentMoved(buf: string, pos: nat, n: nat, fileOpen: bool, data: string, remaining: nat)
    requires pos + n <= |buf|
    ensures Unsent(buf, pos, fileOpen, data, remaining) == buf[pos..][..n]
            + Unsent(buf, pos + n, fileOpen, data, remaining)
  {
    assert buf[pos..] == buf[pos..][..n] + buf[pos+n..];
  }

  /** Moving n bytes of the file, with no tail ahead of it. */
  lemma UnsentFileMoved(buf: string, pos: nat, n: nat, data: string, remaining: nat)
    requires pos >= |buf| && n <= remaining <= |data|
    ensures Unsent(buf, pos, true, data, remaining)
         == data[|data|-remaining..][..n] + Unsent(buf, pos, true, data, remaining - n)
  {
    assert data[|data|-remaining..] == data[|data|-remaining..][..n] + data[|data|-(remaining-n)..];
  }

  /** Without the file, its rest is missing. */
  lemma UnsentNoFile(buf: string, pos: nat, data: string, remaining: nat)
    requires remaining <= |data|
    ensures |Unsent(buf, pos, true, data, remaining)| == |Unsent(buf, pos, false, data, remaining)| + remaining
    ensures remaining == 0 ==> Unsent(buf, pos, true, data, remaining) == Unsent(buf, pos, false, data, remaining)
    ensures forall k :: Unsent(buf, pos, false, data, k) == Unsent(buf, pos, false, data, remaining)
  {
  }

  lemma EmptyTail(buf: string, pos: nat, fileOpen: bool, data: string, remaining: nat)
    requires pos >= |buf|
    ensures Unsent(buf, pos, fileOpen, data, remaining) == Unsent("", 0, fileOpen, data, remaining)
    ensures !fileOpen ==> Unsent(buf, pos, fileOpen, data, remaining) == ""
  {
  }

  lemma Strings3(a: string, b: string, c: string)
    ensures a + "" == a && (a + b) + c == a + (b + c)
  {
  }

  // ── Sending ──

  lemma WireMoved(answers: seq<Answer>, met: nat, sent: string, out: string, rest: string, graceful: bool, lost: nat,
                  strayed: bool, stalled: bool)
    requires WireInv(answers, met, sent, out + rest, false, graceful, lost, strayed, stalled)
    ensures WireInv(answers, met, sent + out, rest, false, graceful, lost, strayed, stalled)
  {
    hide Stream;
    Strings3(sent, out, rest);
  }

  /** Bytes are given up on a connection that stays open: a transfer has moved nothing. */
  lemma WireLost(answers: seq<Answer>, met: nat, sent: string, u: string, u': string, n: nat, graceful: bool,
                 lost: nat, strayed: bool, was: bool)
    requires WireInv(answers, met, sent, u, false, graceful, lost, strayed, was) && |u| == |u'| + n && n > 0
    ensures WireInv(answers, met, sent, u', false, graceful, lost + n, strayed, true)
  {
    hide Stream;
  }

  lemma WireGivenUp(answers: seq<Answer>, met: nat, sent: string, u: string, more: string, graceful: bool, lost: nat,
                    strayed: bool, stalled: bool)
    requires WireInv(answers, met, sent, u + more, false, graceful, lost, strayed, stalled) && stalled
    ensures WireInv(answers, met, sent, u, false, graceful, lost + |more|, strayed, stalled)
  {
    hide Stream;
  }

  /** What a closed connection has not sent does not matter. */
  lemma WireClosed(answers: seq<Answer>, met: nat, sent: string, u: string, u': string, closed: bool, graceful: bool,
                   lost: nat, strayed: bool, was: bool, stalled: bool)
    requires WireInv(answers, met, sent, u, closed, graceful, lost, strayed, was) && (was ==> stalled)
    ensures WireInv(answers, met, sent, u', true, graceful, lost, strayed, stalled)
  {
    hide Stream;
  }

  /** A closed connection still moves a file. */
  lemma WireStrayed(answers: seq<Answer>, met: nat, sent: string, u: string, sent': string, u': string, lost: nat,
                    strayed: bool, stalled: bool)
    requires WireInv(answers, met, sent, u, true, false, lost, strayed, stalled)
    ensures WireInv(answers, met, sent', u', true, false, lost, true, stalled)
  {
    hide Stream;
  }

  lemma WireAnswered(answers: seq<Answer>, met: nat, sent: string, u: string, graceful: bool, lost: nat, strayed: bool,
                     stalled: bool, a: Answer)
    requires WireInv(answers, met, sent, u, false, graceful, lost, strayed, stalled) && !graceful
    ensures WireInv(answers + [a], met, sent, u + Wire(a), false, graceful, lost, strayed, stalled)
  {
    StreamAppend(answers, a);
    hide Stream, Wire;
    Strings3(sent, u, Wire(a));
  }

  /** Some of the file is sent, with nothing ahead of it or on a closed connection. */
  lemma WireFileSome(answers: seq<Answer>, met: nat, sent: string, buf: string, pos: nat, data: string, remaining: nat,
                     n: nat, closed: bool, graceful: bool, lost: nat, strayed: bool, was: bool)
    requires n <= remaining <= |data| && pos <= |buf| && (closed || pos >= |buf|) && !graceful
    requires WireInv(answers, met, sent, Unsent(buf, pos, true, data, remaining), closed, graceful, lost, strayed, was)
    ensures closed ==> WireInv(answers, met, sent + data[|data|-remaining..][..n],
                               Unsent(buf, pos, true, data, remaining - n), closed, graceful, lost, true, was)
    ensures !closed ==> WireInv(answers, met, sent + data[|data|-remaining..][..n],
                                Unsent(buf, pos, true, data, remaining - n), closed, graceful, lost, strayed, was)
  {
    hide WireInv, Unsent;
    var u, v, moved := Unsent(buf, pos, true, data, remaining), Unsent(buf, pos, true, data, remaining - n),
      data[|data|-remaining..][..n];
    if closed {
      WireStrayed(answers, met, sent, u, sent + moved, v, lost, strayed, was);
    } else {
      UnsentFileMoved(buf, pos, n, data, remaining);
      WireMoved(answers, met, sent, moved, v, graceful, lost, strayed, was);
    }
  }

  /** The file ends before its announced end, with nothing ahead of it or on a closed connection. */
  lemma WireFileShort(answers: seq<Answer>, met: nat, sent: string, buf: string, pos: nat, data: string, remaining: nat,
                      closed: bool, graceful: bool, lost: nat, strayed: bool, was: bool)
    requires 0 < remaining <= |data|
    requires WireInv(answers, met, sent, Unsent(buf, pos, true, data, remaining), closed, graceful, lost, strayed, was)
    ensures WireInv(answers, met, sent, Unsent(buf, pos, false, data, remaining), closed, graceful,
                    lost + (if closed then 0 else remaining), strayed, true)
  {
    hide WireInv, Unsent;
    var u, v := Unsent(buf, pos, true, data, remaining), Unsent(buf, pos, false, data, remaining);
    UnsentNoFile(buf, pos, data, remaining);
    if closed {
      WireClosed(answers, met, sent, u, v, closed, graceful, lost, strayed, was, true);
    } else {
      WireLost(answers, met, sent, u, v, remaining, graceful, lost, strayed, was);
    }
  }

  /** Some of the tail is sent. */
  lemma WireTailSome(answers: seq<Answer>, met: nat, sent: string, buf: string, pos: nat, fileOpen: bool, data: string,
                     remaining: nat, n: nat, graceful: bool, lost: nat, strayed: bool, was: bool)
    requires pos + n <= |buf|
    requires WireInv(answers, met, sent, Unsent(buf, pos, fileOpen, data, remaining), false, graceful, lost, strayed,
                     was)
    ensures WireInv(answers, met, sent + buf[pos..][..n], Unsent(buf, pos + n, fileOpen, data, remaining), false,
                    graceful, lost, strayed, was)
  {
    hide WireInv, Unsent;
    UnsentMoved(buf, pos, n, fileOpen, data, remaining);
    WireMoved(answers, met, sent, buf[pos..][..n], Unsent(buf, pos + n, fileOpen, data, remaining), graceful, lost,
              strayed, was);
  }

  lemma WireMet(answers: seq<Answer>, met: nat, met': nat, sent: string, u: string, lost: nat, strayed: bool,
                stalled: bool)
    requires WireInv(answers, met, sent, u, false, false, lost, strayed, stalled)
    ensures WireInv(answers, met', sent, u, false, false, lost, strayed, stalled)
  {
    hide Stream;
  }

  /** Nothing is left to send and every request has its answer: the end is graceful. */
  lemma WireFinished(answers: seq<Answer>, met: nat, sent: string, u: string, lost: nat, strayed: bool, stalled: bool)
    requires WireInv(answers, met, sent, u, false, false, lost, strayed, stalled) && u == "" && |answers| == met
    ensures WireInv(answers, met, sent, u, true, true, lost, strayed, stalled)
  {
    hide Stream;
    Strings3(sent, u, "");
  }

  // ── Memory ──

  lemma MemoryFacts(answers: seq<Answer>, b: int, t: bool, o: bool, awaiting: bool, closed: bool)
    requires MemoryInv(answers, b, t, o, awaiting, closed)
    ensures !closed && t ==> b > LOW_WATER
    ensures !closed && b > HIGH_WATER ==> t || o
    ensures awaiting ==> b <= HIGH_WATER
    ensures b > 0 ==> answers != []
  {
  }

  lemma MemoryClosed(answers: seq<Answer>, b: int, t: bool, o: bool, awaiting: bool, closed: bool, o': bool)
    requires MemoryInv(answers, b, t, o, awaiting, closed)
    ensures MemoryInv(answers, b, t, o', awaiting, true)
  {
  }

  /** The tail shrinks, or is thrown away; the file may end when nothing is ahead of it. */
  lemma MemoryShrinks(answers: seq<Answer>, b: int, t: bool, o: bool, awaiting: bool, closed: bool, b': int, t': bool,
                      o': bool)
    requires MemoryInv(answers, b, t, o, awaiting, closed) && b' <= b && (answers != [] || b' == 0)
    requires t' == (t && b' > LOW_WATER) || closed
    requires o ==> o' || b' <= 0 || closed
    ensures MemoryInv(answers, b', t', o', awaiting, closed)
  {
  }

  lemma MemoryAnswered(answers: seq<Answer>, b: int, t: bool, awaiting: bool, a: Answer)
    requires MemoryInv(answers, b, t, false, awaiting, false) && b <= HIGH_WATER
    ensures MemoryInv(answers + [a], b, t, false, false, false)
  {
  }

  /**
   * Part of the answer is buffered, nothing or less than the high mark being ahead of it; a file's head is
   * not looked at.
   */
  lemma MemoryGrows(answers: seq<Answer>, b: int, t: bool, b': int, t': bool, file: bool)
    requires MemoryInv(answers, b, t, false, false, false) && answers != [] && b <= HIGH_WATER
    requires b' <= b + |Buffered(answers[|answers|-1])| && (b <= 0 || b <= b')
    requires t' == (t || (b' > HIGH_WATER && !(file && b <= 0)))
    ensures MemoryInv(answers, b', t', file, false, false)
  {
  }

  lemma MemoryOwes(answers: seq<Answer>, b: int, t: bool)
    requires MemoryInv(answers, b, t, false, false, false) && b <= HIGH_WATER
    ensures MemoryInv(answers, b, t, false, true, false)
  {
  }

  lemma MemoryFile(answers: seq<Answer>, b: int, t: bool, file: bool)
    requires MemoryInv(answers, b, t, false, false, false)
    ensures MemoryInv(answers, b, t, file, false, false)
  {
  }

  // ── Turns ──

  lemma TurnClosed(met: nat, answers: nat, refused: bool, awaiting: bool, handling: bool, fileOpen: bool, closed: bool,
                   deferred: set<nat>)
    requires TurnInv(met, answers, refused, awaiting, handling, fileOpen, closed, deferred)
    ensures TurnInv(met, answers, refused, awaiting, handling, fileOpen, true, deferred)
    ensures TurnInv(met, answers, refused, awaiting, handling, false, closed, deferred)
  {
  }

  lemma TurnFileOpens(met: nat, answers: nat, refused: bool, handling: bool, deferred: set<nat>)
    requires TurnInv(met, answers, refused, false, handling, false, false, deferred) && met == answers
    ensures TurnInv(met, answers, refused, false, handling, true, false, deferred)
  {
  }

  lemma TurnAnswered(met: nat, answers: nat, refused: bool, awaiting: bool, handling: bool, deferred: set<nat>)
    requires TurnInv(met, answers, refused, awaiting, handling, false, false, deferred) && met == answers + 1
    ensures TurnInv(met, answers + 1, refused, false, handling, false, false, {})
  {
  }

  lemma TurnStarts(met: nat, answers: nat, refused: bool, deferred: set<nat>, refused': bool)
    requires TurnInv(met, answers, refused, false, false, false, false, deferred)
    ensures TurnInv(met + 1, answers, refused', false, true, false, false, deferred)
  {
  }

  /** The handler is done: its answer is started, or it owes one. */
  lemma TurnEnds(met: nat, answers: nat, refused: bool, fileOpen: bool, closed: bool, deferred: set<nat>, owes: bool)
    requires TurnInv(met, answers, refused, false, true, fileOpen, closed, deferred)
    requires if owes then met == answers + 1 && !refused && !fileOpen && !closed else met == answers
    ensures TurnInv(met, answers, refused, owes, false, fileOpen, closed, if owes then {answers} else deferred)
  {
  }

  // ── The last request and the last answer ──

  lemma LastClosing(k: string -> bool, requests: seq<string>, answers: seq<Answer>, refused: bool, ending: bool,
                    closing: bool, ending': bool, closing': bool)
    requires LastInv(k, requests, answers, refused, ending, closing) && (ending ==> ending') && (closing ==> closing')
    ensures LastInv(k, requests, answers, refused, ending', closing') && (refused ==> ending)
  {
  }

  lemma LastAnswered(k: string -> bool, requests: seq<string>, answers: seq<Answer>, refused: bool, ending: bool,
                     closing: bool, a: Answer)
    requires LastInv(k, requests, answers, refused, ending, closing)
    requires |requests| + (if refused then 1 else 0) == |answers| + 1
    requires closing || refused ==> Closes(a)
    ensures LastInv(k, requests, answers + [a], refused, ending, closing)
  {
  }

  lemma LastStarts(k: string -> bool, requests: seq<string>, answers: seq<Answer>, closing: bool, request: string)
    requires LastInv(k, requests, answers, false, false, closing) && |answers| == |requests|
    ensures LastInv(k, requests + [request], answers, false, true, closing || !k(request))
  {
  }

  lemma LastRefuses(k: string -> bool, requests: seq<string>, answers: seq<Answer>, closing: bool)
    requires LastInv(k, requests, answers, false, false, closing) && |answers| == |requests|
    ensures LastInv(k, requests, answers, true, true, closing)
  {
  }

  lemma LastEnds(k: string -> bool, requests: seq<string>, answers: seq<Answer>, refused: bool, closing: bool,
                 ending: bool, closing': bool)
    requires LastInv(k, requests, answers, refused, true, closing) && (closing ==> closing')
    requires refused || (requests != [] && !k(requests[|requests|-1])) ==> ending && closing'
    ensures LastInv(k, requests, answers, refused, ending, closing')
  {
  }

  lemma EndStarts(f: Framing, requests: seq<string>, draining: bool, closing: bool, closed: bool, request: string)
    requires EndInv(f, requests, false, draining, false, closing, false, closed)
    ensures EndInv(f, requests + [request], false, draining, false, closing || !f.keepAlive(request), true, closed)
    ensures EndInv(f, requests, true, draining, false, closing, true, closed)
  {
  }

  lemma EndEnds(f: Framing, requests: seq<string>, refused: bool, draining: bool, stop: bool, closing: bool,
                closed: bool)
    requires EndInv(f, requests, refused, draining, stop, closing, true, closed)
    requires refused || draining || (requests != [] && !f.keepAlive(requests[|requests|-1])) ==> stop
    ensures EndInv(f, requests, refused, draining, stop, closing, false, closed)
  {
  }

  lemma EndDrains(f: Framing, requests: seq<string>, refused: bool, draining: bool, stop: bool, closing: bool,
                  atWork: bool)
    requires EndInv(f, requests, refused, draining, stop, closing, false, false)
    ensures EndInv(f, requests, refused, true, stop || atWork, closing || atWork, false, false)
  {
  }

  lemma DrainEnding(draining: bool, answers: seq<Answer>, met: nat, mark: nat, ending: bool, ending': bool)
    requires DrainInv(draining, answers, met, mark, ending) && (ending ==> ending' || !draining)
    ensures DrainInv(draining, answers, met, mark, ending')
  {
  }

  lemma DrainAnswered(draining: bool, answers: seq<Answer>, met: nat, mark: nat, ending: bool, a: Answer)
    requires DrainInv(draining, answers, met, mark, ending) && (draining ==> Closes(a))
    ensures DrainInv(draining, answers + [a], met, mark, ending)
  {
  }

  lemma DrainStarts(draining: bool, answers: seq<Answer>, met: nat, mark: nat)
    requires DrainInv(draining, answers, met, mark, false)
    ensures DrainInv(draining, answers, met + 1, mark, true)
  {
  }

  lemma DrainBegins(draining: bool, answers: seq<Answer>, met: nat, mark: nat, ending: bool, ending': bool)
    requires DrainInv(draining, answers, met, mark, ending) && (ending ==> ending')
    requires |answers| <= met <= |answers| + 1 && (!ending' ==> met == |answers|)
    ensures DrainInv(true, answers, met, if draining then mark else |answers|, ending')
  {
  }

  // ── Handlers and their answers ──

  lemma WorkEnding(requests: seq<string>, answers: seq<Answer>, calls: seq<(string, Action)>, late: map<nat, Action>,
                   met: nat, refused: bool, error: string, ending: bool, handling: bool, awaiting: bool, ending': bool)
    requires WorkInv(requests, answers, calls, late, met, refused, error, ending, handling, awaiting)
    requires ending ==> ending'
    ensures WorkInv(requests, answers, calls, late, met, refused, error, ending', handling, awaiting)
  {
    hide IsAnswer;
  }

  lemma WorkStarts(requests: seq<string>, answers: seq<Answer>, calls: seq<(string, Action)>, late: map<nat, Action>,
                   error: string, request: string, error': string)
    requires WorkInv(requests, answers, calls, late, |answers|, false, error, false, false, false)
    requires |answers| == |requests|
    ensures WorkInv(requests + [request], answers, calls, late, |answers| + 1, false, error, true, true, false)
    ensures WorkInv(requests, answers, calls, late, |answers| + 1, true, error', true, true, false)
  {
    hide IsAnswer;
  }

  lemma WorkAsked(requests: seq<string>, answers: seq<Answer>, calls: seq<(string, Action)>, late: map<nat, Action>,
                  error: string, action: Action)
    requires WorkInv(requests, answers, calls, late, |requests|, false, error, true, true, false)
    requires |requests| == |calls| + 1 == |answers| + 1
    ensures WorkInv(requests, answers, calls + [(requests[|requests|-1], action)], late, |requests|, false, error,
                    true, true, false)
  {
    hide IsAnswer;
  }

  lemma WorkAnswered(requests: seq<string>, answers: seq<Answer>, calls: seq<(string, Action)>, late: map<nat, Action>,
                     met: nat, refused: bool, error: string, ending: bool, handling: bool, awaiting: bool, a: Answer)
    requires WorkInv(requests, answers, calls, late, met, refused, error, ending, handling, awaiting)
    requires met == |answers| + 1 == Met(|requests|, refused)
    requires |answers| < |calls| ==> Fits(ActionOf(calls, late, |answers|), a, ending)
    requires refused ==> a == Reply(BadRequest(error))
    ensures WorkInv(requests, answers + [a], calls, late, met, refused, error, ending, handling, false)
  {
    hide IsAnswer, BadRequest;
  }

  lemma WorkEnds(requests: seq<string>, answers: seq<Answer>, calls: seq<(string, Action)>, late: map<nat, Action>,
                 met: nat, refused: bool, error: string, ending: bool, owes: bool)
    requires WorkInv(requests, answers, calls, late, met, refused, error, true, true, false) && |calls| == |requests|
    requires met == Met(|requests|, refused) && (refused ==> ending && !owes)
    requires if owes then met == |answers| + 1 && calls[|answers|].1.Defer? else met == |answers|
    requires !ending && !owes ==> 0 < |answers| == |calls| && Fits(calls[|calls|-1].1, answers[|answers|-1], false)
    ensures WorkInv(requests, answers, calls, late, met, refused, error, ending, false, owes)
  {
    if !ending && !owes {
      FitsAtOnce(calls, late, |calls| - 1, answers[|answers|-1], false);
    }
    hide IsAnswer, BadRequest;
  }

  /** An answer that fits what the handler did: it did not defer. */
  lemma FitsAtOnce(calls: seq<(string, Action)>, late: map<nat, Action>, i: nat, a: Answer, last: bool)
    requires i < |calls| && Fits(calls[i].1, a, last)
    ensures ActionOf(calls, late, i) == calls[i].1
  {
  }

  /** A module gives its answer to the request that is owed one. */
  lemma WorkGiven(requests: seq<string>, answers: seq<Answer>, calls: seq<(string, Action)>, late: map<nat, Action>,
                  met: nat, refused: bool, error: string, ending: bool, handling: bool, awaiting: bool, action: Action)
    requires WorkInv(requests, answers, calls, late, met, refused, error, ending, handling, awaiting)
    ensures WorkInv(requests, answers, calls, late[|answers| := action], met, refused, error, ending, handling,
                    awaiting)
  {
    hide IsAnswer, BadRequest;
  }

  function Met(requests: nat, refused: bool): nat {
    requests + if refused then 1 else 0
  }

  // ── Input ──

  lemma InputByte(judge: string -> Verdict, requests: seq<string>, partial: string, seen: string, received: string,
                  b: char)
    requires InputInv(judge, requests, partial, seen, received, false) && seen + [b] <= received
    ensures judge(partial + [b]) == More ==> InputInv(judge, requests, partial + [b], seen + [b], received, false)
    ensures judge(partial + [b]) == Complete ==>
      InputInv(judge, requests + [partial + [b]], "", seen + [b], received, false)
    ensures judge(partial + [b]).Malformed? ==> InputInv(judge, requests, partial, seen, received, true)
  {
    ParseAppend(judge, seen, b);
    assert received[..|seen|+1] == seen + [b];
  }

  lemma InputRead(judge: string -> Verdict, requests: seq<string>, partial: string, seen: string, received: string,
                  refused: bool, received': string)
    requires InputInv(judge, requests, partial, seen, received, refused) && received <= received'
    ensures InputInv(judge, requests, partial, seen, received', refused)
  {
    if refused {
      assert received'[..|seen|+1] == received[..|seen|+1];
    }
  }

  lemma SplitFirst(seen: string, data: string, i: nat)
    requires i < |data|
    ensures seen + data[i..] == (seen + [data[i]]) + data[i+1..]
  {
    assert data[i..] == [data[i]] + data[i+1..];
  }

  /** Not reading, the peer is still watched, unless reading stopped for good and nothing is owed. */
  function Wanted(owed: bool, throttled: bool, stopReading: bool, wake: bool): Mask {
    var m := if owed || (throttled && !stopReading) then Mask(false, false, true)
             else if !stopReading then Mask(true, false, true)
             else Mask(false, false, false);
    if wake then m.(output := true) else m
  }

  lemma FileWire(mime: string, content: string, close: bool)
    ensures var a := File(mime, content, close);
      Wire(a) == FileHead(mime, |content|, close) + content && Buffered(a) == FileHead(mime, |content|, close)
        && (Closes(a) <==> close)
  {
  }

  lemma ReplyWire(r: Response)
    ensures Wire(Reply(r)) == Buffered(Reply(r)) == Serialized(r) && (Closes(Reply(r)) <==> SaysClose(r))
  {
  }

  /** What sending starts from. */
  datatype Output = Output(buf: string, pos: nat, fileOpen: bool, throttled: bool, lost: nat, sent: string,
                           transfers: seq<int>, stalled: bool)

  // ── Histories ──

  /** All that was met, answered, asked, sent and read so far. */
  datatype Past = Past(requests: seq<string>, answers: seq<Answer>, calls: seq<(string, Action)>, sent: string,
                       received: string)

  /** Nothing of it is ever taken back. */
  ghost predicate Grown(a: Past, b: Past) {
    a.requests <= b.requests && a.answers <= b.answers && a.calls <= b.calls && a.sent <= b.sent
      && a.received <= b.received
  }

  lemma GrownThen(a: Past, b: Past, c: Past)
    requires Grown(a, b) && Grown(b, c)
    ensures Grown(a, c)
  {
  }

  // ─── The connection ────────────────────────────────────────────────────────

  class Connection {
    const framing: Framing
    const env: Environment

    var closed: bool
    var awaiting: bool               // the handler left without answering; its answer comes later
    var dispatching: bool
    var answeredInDispatch: bool
    var closeAfterSend: bool         // to be closed once all is out
    var stopReading: bool            // no request is taken up any more
    var throttled: bool              // too much is unsent for more requests to be taken up
    var draining: bool               // stop_keep_alive() was called: whatever is answered is marked last
    var pendingIn: string            // input held back until the next request may go to work
    var mask: Mask                   // the interest the loop knows of

    var writeBuf: string
    var writePos: nat
    var fileOpen: bool
    var fileData: string
    var fileRemaining: nat

    var partial: string              // the parser: bytes of the request being read
    var hold: bool
    var consumed: nat
    var parseError: string

    ghost var deferred: set<nat>     // the modules' memory: requests they still have to answer

    ghost var requests: seq<string>  // dispatched, in order
    ghost var answers: seq<Answer>   // started, in order
    ghost var seen: string           // the input the parser has taken
    ghost var refused: bool          // a malformed request was met, and gets the 400
    ghost var handling: bool         // a request (or the malformed one) is at work right now
    ghost var drainMark: nat         // answers started before stop_keep_alive()
    ghost var graceful: bool         // closed with a half-close, after everything was said
    ghost var lost: nat              // bytes of answers given up while the connection stayed open
    ghost var strayed: bool          // bytes of a file moved after the connection was given up
    ghost var late: map<nat, Action> // what a module gave to the request of that number, when its handler deferred it
    ghost var aborts: nat            // times it was woken though it does not read, and given up

    predicate Owed() reads `awaiting, `fileOpen { awaiting || fileOpen }
    predicate HasPendingWrites() reads `writeBuf, `writePos, `fileOpen { writePos < |writeBuf| || fileOpen }
    function BufferedBytes(): int reads `writeBuf, `writePos { |writeBuf| - writePos }
    predicate Open()
      reads `closed, `awaiting, `fileOpen, `stopReading, `throttled
    {
      !closed && !Owed() && !stopReading && !throttled
    }

    predicate Resumable()
      reads `closed, `awaiting, `fileOpen, `stopReading, `throttled, `pendingIn
    {
      Open() && pendingIn != ""
    }

    ghost function Now(): Past
      reads this, env
    {
      Past(requests, answers, env.calls, env.sent, env.received)
    }

    /**
     * All that is kept, with u as what was accepted for sending and is not sent, perhaps with a file about
     * to be queued, and with what was known of stalled transfers before the one being dealt with.
     */
    ghost predicate Keeps(u: string, file: bool, stalled: bool)
      reads this, env
    {
      && Fields(file) && (stalled ==> env.stalled)
      && WireInv(answers, Met(|requests|, refused), env.sent, u, closed, graceful, lost, strayed, stalled)
      && MemoryInv(answers, BufferedBytes(), throttled, fileOpen || file, awaiting, closed)
      && PipelineInv(framing, requests, answers, env.calls, late, refused, parseError, awaiting, handling, stopReading,
                     closeAfterSend, closed, fileOpen, draining, drainMark, deferred)
      && IntakeInv(framing.judge, requests, partial, seen, env.received, refused, pendingIn, closed, stopReading,
                   dispatching)
    }

    ghost predicate Fields(file: bool)
      reads this, env`transfers, env`arrivals, env`actions, env`registered, env`received, env`calls, env`stalled,
            env`blocked, env`gone
    {
      && writePos <= |writeBuf| && (fileOpen ==> fileRemaining <= |fileData|) && (handling ==> dispatching)
      && (graceful ==> closed && !fileOpen) && Backed(file) && Justified() && env.Promised()
    }

    /** It closes for a reason, or because it was let go. */
    ghost predicate Justified()
      reads `closed, `graceful, `draining, `refused, `requests, `aborts, env`stalled, env`gone
    {
      (graceful ==> Reasoned()) && (closed ==> graceful || LetGo())
    }

    /** Something is held back only because the socket once blocked, but for a file just opened. */
    ghost predicate Backed(file: bool)
      reads `closed, `writeBuf, `writePos, `fileOpen, env`blocked
    {
      !closed && env.blocked == 0 ==> writePos >= |writeBuf| && (fileOpen ==> file)
    }

    /** There is a reason to stop reading. */
    ghost predicate Reasoned()
      reads `draining, `refused, `requests
    {
      draining || refused || Ends(framing, requests)
    }

    /**
     * The peer is gone, or the loop has let go, or a transfer moved nothing, or it was woken though it does
     * not read.
     */
    ghost predicate LetGo()
      reads `aborts, env`stalled, env`gone
    {
      aborts > 0 || env.gone > 0 || env.stalled
    }

    lemma Assembled()
      requires Fields(false)
      requires WireInv(answers, Met(|requests|, refused), env.sent,
                       Unsent(writeBuf, writePos, fileOpen, fileData, fileRemaining), closed, graceful, lost, strayed,
                       env.stalled)
      requires MemoryInv(answers, BufferedBytes(), throttled, fileOpen, awaiting, closed)
      requires PipelineInv(framing, requests, answers, env.calls, late, refused, parseError, awaiting, handling,
                           stopReading, closeAfterSend, closed, fileOpen, draining, drainMark, deferred)
      requires IntakeInv(framing.judge, requests, partial, seen, env.received, refused, pendingIn, closed, stopReading,
                         dispatching)
      ensures Valid()
    {
      hide WireInv, MemoryInv, PipelineInv, IntakeInv, Unsent;
    }

    /** What follows at once. */
    lemma Facts(u: string, file: bool, stalled: bool)
      requires Keeps(u, file, stalled)
      ensures |answers| <= Met(|requests|, refused) <= |answers| + 1
      ensures !closed && !handling && !awaiting ==> Met(|requests|, refused) == |answers|
      ensures awaiting ==> deferred == {|answers|} && !fileOpen && !refused && Met(|requests|, refused) == |answers| + 1
      ensures !closed && deferred != {} ==> awaiting
      ensures handling ==> !awaiting
      ensures refused && !handling ==> Met(|requests|, refused) == |answers|
      ensures refused ==> stopReading || handling || closed
      ensures !closed && !handling ==> (stopReading <==> closeAfterSend)
      ensures !closed && stopReading ==> Reasoned()
      ensures !handling || refused ==> |env.calls| == |requests|
      ensures awaiting ==> Deferred()
      ensures !closed && throttled ==> BufferedBytes() > LOW_WATER
      ensures (!closed && !file && !fileOpen && !throttled) || awaiting ==> BufferedBytes() <= HIGH_WATER
      ensures BufferedBytes() > 0 ==> answers != []
      ensures |pendingIn| <= READ_SIZE && (!closed && !stopReading && !dispatching ==> env.received == seen + pendingIn)
    {
      hide WireInv, LastInv, DrainInv, InputInv, Fits, Ends, BadRequest;
      LastClosing(framing.keepAlive, requests, answers, refused, stopReading || handling || closed,
                  closed || closeAfterSend, true, true);
    }

    ghost predicate Holds(u: string)
      reads this, env
    {
      Keeps(u, false, env.stalled)
    }

    ghost predicate Valid()
      reads this, env
    {
      Holds(Unsent(writeBuf, writePos, fileOpen, fileData, fileRemaining))
    }

    /** Woken for whatever is left to do: to write, to go on with held input, to read, to hear that the peer left. */
    ghost predicate Hears()
      reads `closed, `awaiting, `fileOpen, `stopReading, `throttled, `pendingIn, `mask, `writeBuf, `writePos
    {
      && (HasPendingWrites() || Resumable() ==> mask.output)
      && (!Owed() && !HasPendingWrites() ==> mask.input)
      && (Owed() || !stopReading ==> mask.peer)
      && (Owed() || throttled ==> !mask.input)
    }

    /** ... and not woken to read what must wait. */
    ghost predicate MaskOk()
      reads `closed, `awaiting, `fileOpen, `stopReading, `throttled, `pendingIn, `mask, `writeBuf, `writePos
    {
      Hears() && (stopReading ==> !mask.input)
    }

    /** The mask is the one wanted in this state. */
    predicate Tuned()
      reads `closed, `awaiting, `fileOpen, `stopReading, `throttled, `pendingIn, `mask, `writeBuf, `writePos
    {
      mask == Wanted(Owed(), throttled, stopReading, HasPendingWrites() || Resumable())
    }

    /** A connection that is to be closed stays open only for something that is not out yet. */
    ghost predicate EndPending()
      reads `closed, `closeAfterSend, `awaiting, `fileOpen, `writeBuf, `writePos
    {
      !closed && closeAfterSend ==> Owed() || HasPendingWrites()
    }

    /** Between two events. */
    ghost predicate Resting()
      reads this, env
    {
      && Valid() && !dispatching && !handling && !hold
      && (!closed ==> Hears() && EndPending()) && (!closed && !draining ==> MaskOk())
    }

    constructor (framing: Framing, env: Environment)
      requires env.Unused()
      ensures this.framing == framing && this.env == env
      ensures Resting() && !closed && !draining && requests == [] && answers == [] && deferred == {} && !graceful
      ensures seen == "" && partial == "" && pendingIn == "" && !awaiting && Idle() && late == map[] && aborts == 0
    {
      this.framing, this.env := framing, env;
      closed, awaiting, dispatching, answeredInDispatch := false, false, false, false;
      closeAfterSend, stopReading, throttled, draining := false, false, false, false;
      pendingIn, mask := "", Mask(true, false, true);
      writeBuf, writePos, fileOpen, fileData, fileRemaining := "", 0, false, "", 0;
      partial, hold, consumed, parseError := "", false, 0, "";
      deferred, requests, answers, seen := {}, [], [], "";
      refused, handling, drainMark, graceful, lost, strayed, late, aborts := false, false, 0, false, 0, false, map[], 0;
      new;
      hide WireInv, MemoryInv, PipelineInv, IntakeInv, Unsent, Connection.Keeps;
      NothingYet();
      Assembled();
    }

    lemma NothingYet()
      requires env.Unused() && Idle() && !closed && !awaiting && !refused && !handling && !draining && !graceful
      requires !strayed
      requires requests == [] && answers == [] && deferred == {} && seen == "" && partial == "" && pendingIn == ""
      requires writeBuf == "" && writePos == 0
      ensures Fields(false) && MemoryInv(answers, BufferedBytes(), throttled, fileOpen, awaiting, closed)
      ensures WireInv(answers, Met(|requests|, refused), env.sent,
                      Unsent(writeBuf, writePos, fileOpen, fileData, fileRemaining), closed, graceful, lost, strayed,
                      env.stalled)
      ensures PipelineInv(framing, requests, answers, env.calls, late, refused, parseError, awaiting, handling,
                          stopReading, closeAfterSend, closed, fileOpen, draining, drainMark, deferred)
      ensures IntakeInv(framing.judge, requests, partial, seen, env.received, refused, pendingIn, closed, stopReading,
                        dispatching)
    {
    }

    /** Nothing is to be written, and nothing stands in the way of reading. */
    ghost predicate Idle()
      reads this
    {
      !HasPendingWrites() && !throttled && !closeAfterSend && !stopReading && lost == 0
    }

    // ── Closing and the event mask ──

    /** Whatever was kept of an open connection is kept of it closed, whatever else is read. */
    lemma KeptClosed(u: string, file: bool, stalled: bool)
      requires Keeps(u, file, stalled)
      ensures WireInv(answers, Met(|requests|, refused), env.sent,
                      Unsent(writeBuf, writePos, fileOpen, fileData, fileRemaining), true, graceful, lost, strayed,
                      env.stalled)
      ensures MemoryInv(answers, BufferedBytes(), throttled, fileOpen, awaiting, true)
      ensures forall closing :: PipelineInv(framing, requests, answers, env.calls, late, refused, parseError, awaiting,
                                            handling, stopReading, closing, true, fileOpen, draining, drainMark,
                                            deferred)
      ensures forall received :: env.received <= received ==>
        IntakeInv(framing.judge, requests, partial, seen, received, refused, pendingIn, true, stopReading, dispatching)
    {
      hide WireInv, MemoryInv, TurnInv, LastInv, DrainInv, WorkInv, InputInv, Unsent, Connection.Justified,
        Environment.Promised;
      var met, ending := Met(|requests|, refused), stopReading || handling || closed;
      WireClosed(answers, met, env.sent, u, Unsent(writeBuf, writePos, fileOpen, fileData, fileRemaining), closed,
                 graceful, lost, strayed, stalled, env.stalled);
      MemoryClosed(answers, BufferedBytes(), throttled, fileOpen || file, awaiting, closed, fileOpen);
      TurnClosed(met, |answers|, refused, awaiting, handling, fileOpen, closed, deferred);
      LastClosing(framing.keepAlive, requests, answers, refused, ending, closed || closeAfterSend, true, true);
      DrainEnding(draining, answers, met, drainMark, ending, true);
      WorkEnding(requests, answers, env.calls, late, met, refused, parseError, ending, handling, awaiting, true);
      forall received | env.received <= received
        ensures InputInv(framing.judge, requests, partial, seen, received, refused)
      {
        InputRead(framing.judge, requests, partial, seen, env.received, refused, received);
      }
    }

    /** closed_ = true, with u still unsent. */
    method GiveUp(ghost u: string, ghost file: bool, ghost was: bool)
      requires Keeps(u, file, was) && LetGo()
      modifies `closed
      ensures closed && Valid()
    {
      hide WireInv, MemoryInv, PipelineInv, IntakeInv, Unsent;
      KeptClosed(u, file, was);
      closed := true;
    }

    method Abandon()
      requires Valid() && LetGo()
      modifies `closed
      ensures closed && Valid()
    {
      hide Connection.Keeps;
      GiveUp(Unsent(writeBuf, writePos, fileOpen, fileData, fileRemaining), false, env.stalled);
    }

    method ShutdownAndDrain()
      modifies env`arrivals, env`received, env`gone
      ensures old(env.received) <= env.received && (old(env.Promised()) ==> env.Promised())
    {
      hide Environment.Promised;
      for i := 0 to 64
        invariant old(env.received) <= env.received && (old(env.Promised()) ==> env.Promised())
      {
        var r := env.Read(READ_SIZE);
        if !r.Data? { break; }
      }
    }

    /** Half-closes, takes what the client already sent, and closes: everything was said. */
    method Finish()
      requires Valid() && !closed && !handling && !Owed() && !HasPendingWrites() && (closeAfterSend || draining)
      modifies `closed, `closeAfterSend, `graceful, env`arrivals, env`received, env`gone
      ensures Valid() && closed && graceful && !closeAfterSend && old(env.received) <= env.received
    {
      hide WireInv, MemoryInv, PipelineInv, IntakeInv, Unsent, Connection.Keeps, Environment.Promised;
      AllDone();
      ShutdownAndDrain();
      closeAfterSend, closed, graceful := false, true, true;
      Assembled();
    }

    lemma AllDone()
      requires Valid() && !closed && !handling && !Owed() && !HasPendingWrites() && (closeAfterSend || draining)
      ensures Fields(false) && Reasoned()
      ensures WireInv(answers, Met(|requests|, refused), env.sent,
                      Unsent(writeBuf, writePos, fileOpen, fileData, fileRemaining), true, true, lost, strayed,
                      env.stalled)
      ensures MemoryInv(answers, BufferedBytes(), throttled, fileOpen, awaiting, true)
      ensures PipelineInv(framing, requests, answers, env.calls, late, refused, parseError, awaiting, handling,
                          stopReading, false, true, fileOpen, draining, drainMark, deferred)
      ensures forall received :: env.received <= received ==>
        IntakeInv(framing.judge, requests, partial, seen, received, refused, pendingIn, true, stopReading, dispatching)
    {
      hide WireInv, MemoryInv, PipelineInv, IntakeInv, Unsent;
      ghost var u := Unsent(writeBuf, writePos, fileOpen, fileData, fileRemaining);
      EmptyTail(writeBuf, writePos, fileOpen, fileData, fileRemaining);
      Facts(u, false, env.stalled);
      WireFinished(answers, Met(|requests|, refused), env.sent, u, lost, strayed, env.stalled);
      KeptClosed(u, false, env.stalled);
    }

    lemma WantedOk()
      requires Valid() && !closed && !handling && EndPending()
      requires Tuned()
      ensures MaskOk()
    {
      hide WireInv, MemoryInv, PipelineInv, IntakeInv, Unsent;
      Facts(Unsent(writeBuf, writePos, fileOpen, fileData, fileRemaining), false, env.stalled);
    }

    method UpdateInterest()
      requires Valid() && !handling && EndPending()
      modifies `mask, `closed, env`registered, env`gone
      ensures Valid() && (!closed ==> MaskOk() && EndPending())
      ensures !closed ==> Tuned()
      ensures closed ==> old(closed) || !Said(old(env.registered), true)
      ensures old(env.registered) == [] ==> env.registered == []
    {
      hide WireInv, MemoryInv, PipelineInv, IntakeInv, Unsent, Wanted, Connection.MaskOk;
      if closed { return; }
      var m := Wanted(Owed(), throttled, stopReading, HasPendingWrites() || Resumable());
      if m != mask {
        var ok := env.ModifyIo(m);
        if !ok {
          Abandon();
          return;
        }
        mask := m;
      }
      WantedOk();
    }

    /** The last answer is out whole. */
    ghost predicate AllSaid()
      reads this
    {
      !closed && closeAfterSend && !Owed() && !HasPendingWrites()
    }

    method AfterResponse()
      requires Valid() && (!dispatching ==> !handling)
      modifies `closed, `closeAfterSend, `mask, `graceful, env`registered, env`arrivals, env`received, env`gone
      ensures Valid() && (old(closed) ==> closed) && old(env.received) <= env.received
      ensures dispatching || old(closed) ==>
        closed == old(closed) && closeAfterSend == old(closeAfterSend) && mask == old(mask) && graceful == old(graceful)
      ensures dispatching ==> env.received == old(env.received) && env.arrivals == old(env.arrivals)
      ensures !closed ==> env.received == old(env.received) && env.arrivals == old(env.arrivals)
      ensures !dispatching && old(AllSaid()) ==> closed && graceful
      ensures !dispatching && !closed ==> MaskOk() && Tuned() && EndPending() && closeAfterSend == old(closeAfterSend)
      ensures closed ==> old(closed) || old(AllSaid()) || !Said(old(env.registered), true)
    {
      hide WireInv, MemoryInv, PipelineInv, IntakeInv, Unsent, Connection.MaskOk, Wanted;
      if dispatching || closed { return; }
      if closeAfterSend && !Owed() && !HasPendingWrites() {
        Finish();
        return;
      }
      UpdateInterest();
    }

    // ── Answers ──

    /** The answer to request k may be sent: k is at work right now, or its handler deferred it. */
    ghost predicate Due(k: nat)
      reads `handling, `closed, `awaiting, `fileOpen, `throttled, `answers, `requests, `refused, `dispatching, `deferred
    {
      if handling then
        !closed && !awaiting && !fileOpen && !throttled && k == |answers| && Met(|requests|, refused) == k + 1
      else
        !dispatching && k in deferred
    }

    /** An answer that starts now is the last on the connection. */
    predicate AsLast()
      reads `draining, `closeAfterSend
    {
      draining || closeAfterSend
    }

    /**
     * The answer says it is the last when it is, is the 400 of a refused request, and is otherwise what the
     * handler gave.
     */
    ghost predicate Proper(a: Answer)
      reads this, env
    {
      && (AsLast() || refused ==> Closes(a))
      && (refused ==> a == Reply(BadRequest(parseError)))
      && (|answers| < |env.calls| ==> Fits(ActionOf(env.calls, late, |answers|), a, stopReading || handling || closed))
    }

    lemma AnswerStarts(k: nat, a: Answer)
      requires Valid() && !closed && Due(k) && Proper(a)
      ensures k == |answers| && !fileOpen && BufferedBytes() <= HIGH_WATER && Met(|requests|, refused) == k + 1
      ensures WireInv(answers + [a], Met(|requests|, refused), env.sent,
                      Unsent(writeBuf, writePos, false, fileData, fileRemaining) + Wire(a), closed, graceful, lost,
                      strayed, env.stalled)
      ensures MemoryInv(answers + [a], BufferedBytes(), throttled, fileOpen, false, closed)
      ensures PipelineInv(framing, requests, answers + [a], env.calls, late, refused, parseError, false, handling,
                          stopReading, closeAfterSend, closed, fileOpen, draining, drainMark, {})
      ensures if dispatching then !awaiting && deferred == {} else awaiting
    {
      hide WireInv, MemoryInv, TurnInv, LastInv, EndInv, DrainInv, WorkInv, IntakeInv, Unsent;
      hide Closes, Wire, Buffered, Fits, BadRequest;
      var met, ending, u := Met(|requests|, refused), stopReading || handling,
        Unsent(writeBuf, writePos, fileOpen, fileData, fileRemaining);
      DueIsNext(k);
      WireAnswered(answers, met, env.sent, u, graceful, lost, strayed, env.stalled, a);
      MemoryAnswered(answers, BufferedBytes(), throttled, awaiting, a);
      TurnAnswered(met, |answers|, refused, awaiting, handling, deferred);
      LastAnswered(framing.keepAlive, requests, answers, refused, ending, closeAfterSend, a);
      DrainAnswered(draining, answers, met, drainMark, ending, a);
      WorkAnswered(requests, answers, env.calls, late, met, refused, parseError, ending, handling, awaiting, a);
    }

    lemma DueIsNext(k: nat)
      requires Valid() && !closed && Due(k)
      ensures k == |answers| && !fileOpen && BufferedBytes() <= HIGH_WATER && Met(|requests|, refused) == k + 1
      ensures if dispatching then !awaiting && deferred == {} else awaiting
    {
      hide WireInv, MemoryInv, PipelineInv, IntakeInv, Unsent;
      Facts(Unsent(writeBuf, writePos, fileOpen, fileData, fileRemaining), false, env.stalled);
    }

    /** Answer a is next; nothing of it is sent or buffered yet. */
    method ResponseStarted(ghost k: nat, ghost a: Answer)
      requires Valid() && !closed && Due(k) && Proper(a)
      modifies `answeredInDispatch, `awaiting, `deferred, `answers
      ensures Holds(Unsent(writeBuf, writePos, false, fileData, fileRemaining) + Wire(a))
      ensures answers == old(answers) + [a] && |old(answers)| == k
      ensures !awaiting && !fileOpen && BufferedBytes() <= HIGH_WATER && Met(|requests|, refused) == |answers|
      ensures handling ==> answeredInDispatch
    {
      hide WireInv, MemoryInv, PipelineInv, IntakeInv, Unsent, Connection.Proper, Environment.Promised;
      hide Closes, Wire, Buffered, Stream, Parse, Serialized, FileHead;
      AnswerStarts(k, a);
      answers := answers + [a];
      if dispatching {
        answeredInDispatch := true;
      } else {
        if !awaiting && !fileOpen {
          assert false;              // a stray answer: not under the handlers' contract
        }
        awaiting, deferred := false, {};
      }
    }

    /** What a transfer leaves behind that blocked, or found the peer gone. */
    ghost predicate Marks(n: int, blocked: nat)
      reads env`blocked, env`gone
    {
      blocked <= env.blocked && (n == -1 ==> env.blocked > 0) && (n == -2 ==> env.gone > 0)
    }

    /** Writes until done (1), the socket would block (-1), the peer is gone (-2) or nothing moves (0). */
    method WriteOut(data: string) returns (n: int, ghost out: string, rest: string)
      modifies env`transfers, env`sent, env`stalled, env`blocked, env`gone
      ensures var c := CourseOf(old(env.transfers), |data|);
        n == c.end && env.transfers == c.left && out == data[..c.moved] && rest == data[c.moved..]
      ensures env.sent == old(env.sent) + out && env.stalled == (old(env.stalled) || n == 0)
      ensures Marks(n, old(env.blocked)) && (old(env.Promised()) ==> env.Promised())
    {
      hide CourseOf, Outcome, Underway, Environment.Promised;
      ghost var start, transfers := env.sent, env.transfers;
      UnderwayStarts(data, start, transfers);
      n, rest := 1, data;
      while rest != ""
        invariant Underway(data, start, transfers, env.sent, env.transfers, rest) && n == 1
        invariant env.stalled == old(env.stalled) && env.blocked == old(env.blocked)
        invariant old(env.Promised()) ==> env.Promised()
        decreases |rest|
      {
        UnderwayMoves(data, start, transfers, env.sent, env.transfers, rest);
        n := env.Transfer(rest);
        if n <= 0 { break; }
        rest := rest[n..];
        n := 1;
      }
      if rest == "" {
        UnderwayEnds(data, start, transfers, env.sent, env.transfers, rest);
      }
      out := data[..CourseOf(transfers, |data|).moved];
    }

    /** Behind a tail that is still going out; more is what follows data. */
    method Enqueue(data: string, ghost more: string)
      requires Holds(Unsent(writeBuf, writePos, false, fileData, fileRemaining) + (data + more)) && !closed && !fileOpen
      requires !awaiting && writePos < |writeBuf|
      requires BufferedBytes() <= HIGH_WATER && answers != [] && |data| <= |Buffered(answers[|answers|-1])|
      modifies `writeBuf, `throttled
      ensures Holds(Unsent(writeBuf, writePos, false, fileData, fileRemaining) + more)
      ensures writeBuf == old(writeBuf) + data && throttled == (old(throttled) || BufferedBytes() > HIGH_WATER)
    {
      hide WireInv, MemoryInv, PipelineInv, IntakeInv, Unsent, Buffered;
      UnsentAppend(writeBuf, writePos, data, more, fileData, fileRemaining);
      ghost var b, t := BufferedBytes(), throttled;
      writeBuf := writeBuf + data;
      if BufferedBytes() > HIGH_WATER { throttled := true; }
      MemoryGrows(answers, b, t, BufferedBytes(), throttled, false);
    }

    ghost function Outbound(): Output
      reads `writeBuf, `writePos, `fileOpen, `throttled, `lost, env`sent, env`transfers, env`stalled
    {
      Output(writeBuf, writePos, fileOpen, throttled, lost, env.sent, env.transfers, env.stalled)
    }

    /** Data went as far as its transfers go; the tail is the rest when the socket blocks. */
    ghost predicate Gone(data: string, was: Output)
      reads `writeBuf, `writePos, env`sent, env`transfers, env`stalled
    {
      var c := CourseOf(was.transfers, |data|);
      && env.sent == was.sent + data[..c.moved] && env.transfers == c.left && env.stalled == (was.stalled || c.end == 0)
      && writePos <= |writeBuf| && writeBuf[writePos..] == (if c.end == -1 then data[c.moved..] else "")
    }

    /** ... and what a transfer that moved nothing leaves is given up. */
    ghost predicate Wrote(data: string, was: Output)
      reads `writeBuf, `writePos, `lost, env`sent, env`transfers, env`stalled
    {
      Gone(data, was) && lost == was.lost + var c := CourseOf(was.transfers, |data|);
        if c.end == 0 then |data| - c.moved else 0
    }

    method WriteOrBuffer(data: string) returns (n: int, ghost out: string, ghost rest: string)
      requires writePos >= |writeBuf| && writePos <= |writeBuf|
      modifies `writeBuf, `writePos, env`transfers, env`sent, env`stalled, env`blocked, env`gone
      ensures var c := CourseOf(old(env.transfers), |data|);
        n == c.end && out == data[..c.moved] && rest == data[c.moved..]
      ensures Gone(data, old(Outbound())) && env.sent == old(env.sent) + out
      ensures env.stalled == (old(env.stalled) || n == 0)
      ensures Marks(n, old(env.blocked)) && (old(env.Promised()) ==> env.Promised())
      ensures writePos <= |writeBuf| && writeBuf[writePos..] == if n == -1 then rest else ""
    {
      hide CourseOf, Environment.Promised;
      var tail;
      n, out, tail := WriteOut(data);
      rest := tail;
      if n == -1 {
        writeBuf, writePos := tail, 0;
      }
    }

    /** The write itself: what is left of data is still to go, or to be given up. */
    method WriteKept(data: string, ghost more: string) returns (n: int, ghost rest: string)
      requires Holds(Unsent(writeBuf, writePos, false, fileData, fileRemaining) + (data + more)) && !closed && !fileOpen
      requires !awaiting
      requires writePos >= |writeBuf| && answers != [] && |data| <= |Buffered(answers[|answers|-1])|
      modifies `writeBuf, `writePos, env`transfers, env`sent, env`stalled, env`blocked, env`gone
      ensures var c := CourseOf(old(env.transfers), |data|); n == c.end && rest == data[c.moved..]
      ensures Gone(data, old(Outbound())) && env.stalled == (old(env.stalled) || n == 0) && Marks(n, old(env.blocked))
      ensures writePos <= |writeBuf| && writeBuf[writePos..] == if n == -1 then rest else ""
      ensures Keeps(rest + more, true, old(env.stalled))
    {
      hide WireInv, MemoryInv, PipelineInv, IntakeInv, Unsent, Buffered, Stream, CourseOf, Connection.Gone,
        Connection.Outbound, Environment.Promised;
      UnsentTail(writeBuf, writePos, fileData, fileRemaining);
      ghost var sent, was, b := env.sent, env.stalled, BufferedBytes();
      ghost var u := Unsent(writeBuf, writePos, false, fileData, fileRemaining) + (data + more);
      ghost var out;
      n, out, rest := WriteOrBuffer(data);
      assert u == out + (rest + more);
      WireMoved(answers, Met(|requests|, refused), sent, out, rest + more, graceful, lost, strayed, was);
      MemoryGrows(answers, b, throttled, BufferedBytes(), throttled, true);
    }

    /** The throttle is not looked at yet. A peer that is gone closes the connection. */
    method WriteFirst(data: string, ghost more: string) returns (n: int)
      requires Holds(Unsent(writeBuf, writePos, false, fileData, fileRemaining) + (data + more)) && !closed && !fileOpen
      requires !awaiting
      requires writePos >= |writeBuf| && answers != [] && |data| <= |Buffered(answers[|answers|-1])|
      modifies `closed, `writeBuf, `writePos, `lost, env`transfers, env`sent, env`stalled, env`blocked, env`gone
      ensures Wrote(data, old(Outbound())) && n == CourseOf(old(env.transfers), |data|).end && (closed <==> n == -2)
      ensures writePos <= |writeBuf| && BufferedBytes() <= |data| && Marks(n, old(env.blocked))
      ensures if n == -2 then Valid() else Keeps(Unsent(writeBuf, writePos, false, fileData, fileRemaining) + more,
                                                 true, env.stalled)
    {
      hide WireInv, MemoryInv, PipelineInv, IntakeInv, Unsent, Buffered, Stream, CourseOf, Connection.Gone;
      ghost var was := env.stalled;
      ghost var rest;
      n, rest := WriteKept(data, more);
      if n == -2 {
        GiveUp(rest + more, true, was);
        return;
      }
      UnsentTail(writeBuf, writePos, fileData, fileRemaining);
      if n == 0 {
        WireLost(answers, Met(|requests|, refused), env.sent, rest + more, "" + more, |rest|, graceful, lost, strayed,
                 was);
        lost := lost + |rest|;
        return;
      }
      assert n == 1 ==> rest == "";
    }

    /** With nothing ahead of it: as much as the socket takes, the rest is buffered. */
    method WriteNow(data: string, ghost more: string, file: bool) returns (n: int)
      requires Holds(Unsent(writeBuf, writePos, false, fileData, fileRemaining) + (data + more)) && !closed && !fileOpen
      requires !awaiting
      requires writePos >= |writeBuf| && answers != [] && |data| <= |Buffered(answers[|answers|-1])|
      modifies `closed, `writeBuf, `writePos, `throttled, `lost, env`transfers, env`sent, env`stalled, env`blocked,
               env`gone
      ensures Wrote(data, old(Outbound())) && n == CourseOf(old(env.transfers), |data|).end && (closed <==> n == -2)
      ensures if n == -2 then Valid() else Keeps(Unsent(writeBuf, writePos, false, fileData, fileRemaining) + more,
                                                 file, env.stalled)
      ensures throttled == (old(throttled) || (!file && n != -2 && BufferedBytes() > HIGH_WATER))
      ensures Marks(n, old(env.blocked))
    {
      hide WireInv, MemoryInv, PipelineInv, IntakeInv, Unsent, Buffered, Stream, CourseOf, Connection.Wrote,
        Connection.Outbound, Environment.Promised;
      ghost var b, t := BufferedBytes(), throttled;
      MemoryFacts(answers, b, t, fileOpen, awaiting, closed);
      n := WriteFirst(data, more);
      if n == -2 { return; }
      if !file && BufferedBytes() > HIGH_WATER { throttled := true; }
      MemoryGrows(answers, b, t, BufferedBytes(), throttled, file);
    }

    /**
     * Where data is after it was sent: gone as far as its transfers went, the rest in the tail; or queued
     * behind a tail.
     */
    ghost predicate Placed(data: string, was: Output)
      reads `writeBuf, `writePos, `throttled, `lost, env`sent, env`transfers, env`stalled
    {
      && writePos <= |writeBuf|
      && if was.pos < |was.buf| then
           && writeBuf == was.buf + data && writePos == was.pos && lost == was.lost
           && throttled == (was.throttled || |writeBuf| - writePos > HIGH_WATER)
           && env.sent == was.sent && env.transfers == was.transfers && env.stalled == was.stalled
         else
           Wrote(data, was) && throttled == (was.throttled || |writeBuf| - writePos > HIGH_WATER)
    }

    /** Nothing is ahead of the next so many bytes, and a transfer of them finds the peer gone. */
    predicate Fails(size: nat)
      reads `writeBuf, `writePos, env`transfers
    {
      writePos >= |writeBuf| && CourseOf(env.transfers, size).end == -2
    }

    method Deliver(data: string)
      requires Holds(Unsent(writeBuf, writePos, false, fileData, fileRemaining) + data) && !closed && !fileOpen
      requires !awaiting
      requires BufferedBytes() <= HIGH_WATER && answers != [] && |data| <= |Buffered(answers[|answers|-1])|
      modifies `closed, `writeBuf, `writePos, `throttled, `lost, env`transfers, env`sent, env`stalled, env`blocked,
               env`gone
      ensures Valid() && old(env.sent) <= env.sent
      ensures Placed(data, old(Outbound())) && closed == old(Fails(|data|))
    {
      hide WireInv, MemoryInv, PipelineInv, IntakeInv, Unsent, Buffered, CourseOf;
      assert data + "" == data;
      if writePos < |writeBuf| || fileOpen {
        Enqueue(data, "");
      } else {
        var n := WriteNow(data, "", false);
        if n == -2 { return; }
      }
      Strings3(Unsent(writeBuf, writePos, false, fileData, fileRemaining), "", "");
    }

    lemma SendingBounds()
      requires Sending()
      ensures writePos <= |writeBuf| && (fileOpen ==> fileRemaining <= |fileData|)
    {
      hide WireInv, MemoryInv, PipelineInv, IntakeInv, Unsent;
    }

    lemma Bounds()
      requires Valid()
      ensures (handling ==> dispatching) && writePos <= |writeBuf| && (fileOpen ==> fileRemaining <= |fileData|)
      ensures !closed && throttled ==> BufferedBytes() > LOW_WATER
    {
      hide WireInv, MemoryInv, PipelineInv, IntakeInv, Unsent;
      MemoryFacts(answers, BufferedBytes(), throttled, fileOpen, awaiting, closed);
    }

    /** How an answer is begun: see Placed, and FileStarted. */
    ghost predicate Started(a: Answer, was: Output)
      reads `fileOpen, `fileData, `fileRemaining, `throttled, `writeBuf, `writePos, `lost, env`sent, env`transfers,
            env`stalled
    {
      match a
      case Reply(r) => Placed(Serialized(r), was) && fileOpen == was.fileOpen
      case File(mime, content, close) => FileStarted(FileHead(mime, |content|, close), content, was)
    }

    /** Begun now, the answer would find the peer gone. */
    predicate Refused(a: Answer)
      reads `writeBuf, `writePos, env`transfers
    {
      match a
      case Reply(r) => Fails(|Serialized(r)|)
      case File(mime, content, close) => FileFails(|FileHead(mime, |content|, close)|, |content|)
    }

    /** Begun as the last answer or not, it closes the connection only when the peer, or the loop, has let it go. */
    twostate predicate ClosedBy(a: Answer)
      reads `closed
    {
      old(!closed && !closeAfterSend && Said(env.registered, true)) ==> closed == old(Refused(a))
    }

    /** Answer a is begun as the next one. */
    twostate predicate Begun(a: Answer)
      reads `answers, `requests, `refused, `handling, `answeredInDispatch,
            `fileOpen, `fileData, `fileRemaining, `throttled, `writeBuf, `writePos, `lost, env`sent, env`transfers,
              env`stalled
    {
      && answers == old(answers) + [a] && Started(a, old(Outbound())) && Met(|requests|, refused) == |answers|
      && (handling ==> answeredInDispatch)
    }

    /** ... and then the connection is closed or its mask set, unless a dispatch is to see to that. */
    twostate predicate Sent(a: Answer)
      reads this, env
    {
      && Begun(a) && ClosedBy(a) && (!closed ==> !awaiting)
      && if dispatching then
           && env.received == old(env.received) && env.arrivals == old(env.arrivals)
           && closeAfterSend == old(closeAfterSend) && mask == old(mask)
         else
           !closed ==> MaskOk() && Tuned() && EndPending()
    }

    method StartResponse(resp: Response, ghost k: nat)
      requires Valid() && !closed && Due(k) && Proper(Reply(resp))
      modifies `closed, `awaiting, `answeredInDispatch, `throttled, `writeBuf, `writePos, `lost, `deferred, `answers,
               env`transfers, env`sent, env`stalled, env`blocked, env`gone
      ensures Valid() && k == |old(answers)| && old(env.sent) <= env.sent && old(answers) <= answers
      ensures Begun(Reply(resp)) && closed == old(Refused(Reply(resp))) && !awaiting
    {
      hide Connection.Valid, Connection.Holds, Connection.Due, Connection.Proper, Unsent;
      hide Wire, Buffered, Closes, Stream, Parse, Serialized, CourseOf;
      ReplyWire(resp);
      ResponseStarted(k, Reply(resp));
      Deliver(Serialized(resp));
    }

    /** Answers started, something was sent, perhaps something read. */
    lemma Since(was: Past)
      requires was.requests == requests && was.calls == env.calls
      requires was.answers <= answers && was.sent <= env.sent && was.received <= env.received
      ensures Grown(was, Now())
    {
    }

    method SendResponse(resp: Response, ghost k: nat)
      requires Valid() && (closed || (Due(k) && Proper(Reply(Marked(resp, AsLast())))))
      modifies `closed, `awaiting, `answeredInDispatch, `closeAfterSend, `throttled, `mask, `writeBuf, `writePos, `lost,
               `deferred, `answers, `graceful, env`transfers, env`sent, env`stalled, env`blocked, env`registered,
               env`arrivals,
               env`received, env`gone
      ensures Valid() && Grown(old(Now()), Now())
      ensures if old(closed) then unchanged(this) && unchanged(env)
              else k == |old(answers)| && Sent(Reply(Marked(resp, old(AsLast()))))
    {
      hide Connection.Valid, Connection.Holds, Connection.MaskOk, Connection.Tuned, Connection.Begun,
        Connection.Refused, Connection.Proper;
      hide Unsent, Wanted, Grown;
      hide Wire, Buffered, Closes, Stream, Parse, Serialized, Marked, SaysClose;
      StillGrown(Now());
      if closed { return; }
      Bounds();
      ghost var was := Now();
      StartResponse(Marked(resp, AsLast()), k);
      AfterResponse();
      Since(was);
    }

    // ── File answers ──

    lemma FileOpens()
      requires Met(|requests|, refused) == |answers|
      requires PipelineInv(framing, requests, answers, env.calls, late, refused, parseError, false, handling,
                           stopReading, closeAfterSend, false, false, draining, drainMark, deferred)
      ensures PipelineInv(framing, requests, answers, env.calls, late, refused, parseError, false, handling,
                          stopReading, closeAfterSend, false, true, draining, drainMark, deferred)
    {
      hide TurnInv, LastInv, EndInv, DrainInv, WorkInv;
      TurnFileOpens(Met(|requests|, refused), |answers|, refused, handling, deferred);
    }

    lemma FileEnds()
      requires PipelineInv(framing, requests, answers, env.calls, late, refused, parseError, awaiting, handling,
                           stopReading, closeAfterSend, closed, fileOpen, draining, drainMark, deferred)
      ensures PipelineInv(framing, requests, answers, env.calls, late, refused, parseError, awaiting, handling,
                          stopReading, closeAfterSend, closed, false, draining, drainMark, deferred)
    {
      hide TurnInv, LastInv, EndInv, DrainInv, WorkInv;
      TurnClosed(Met(|requests|, refused), |answers|, refused, awaiting, handling, fileOpen, closed, deferred);
    }

    /** The file goes out behind the tail. */
    method QueueFile(content: string)
      requires Keeps(Unsent(writeBuf, writePos, false, fileData, fileRemaining) + content, true, env.stalled)
      requires !closed && !fileOpen && !awaiting && Met(|requests|, refused) == |answers|
      modifies `fileOpen, `fileData, `fileRemaining
      ensures Sending() && fileOpen && fileData == content && fileRemaining == |content|
    {
      hide WireInv, MemoryInv, PipelineInv, IntakeInv, Unsent;
      UnsentFile(writeBuf, writePos, fileData, fileRemaining, content);
      FileOpens();
      fileOpen, fileData, fileRemaining := true, content, |content|;
    }

    /** Nothing is ahead of the file, or the connection is given up. */
    predicate FileTurn()
      reads this
    {
      closed || writePos >= |writeBuf|
    }

    /** Valid, but for a file that may not have been tried yet. */
    ghost predicate Sending()
      reads this, env
    {
      Keeps(Unsent(writeBuf, writePos, fileOpen, fileData, fileRemaining), true, env.stalled)
    }

    lemma Sends()
      requires Valid() && fileOpen
      ensures Sending()
    {
      hide WireInv, MemoryInv, PipelineInv, IntakeInv, Unsent;
    }

    lemma Tried()
      requires Sending() && (fileOpen ==> env.blocked > 0)
      ensures fileOpen ==> Valid()
    {
      hide WireInv, MemoryInv, PipelineInv, IntakeInv, Unsent;
    }

    function FileRest(): string
      requires fileRemaining <= |fileData|
      reads this
    {
      fileData[|fileData|-fileRemaining..]
    }

    /** Some of the file is gone. */
    method MoveFile(n: nat)
      requires fileOpen && n <= fileRemaining <= |fileData|
      requires Keeps(Unsent(writeBuf, writePos, true, fileData, fileRemaining - n), true, env.stalled)
      modifies `fileRemaining
      ensures Sending() && fileRemaining == old(fileRemaining) - n && FileRest() == old(FileRest())[n..]
    {
      hide WireInv, MemoryInv, PipelineInv, IntakeInv, Unsent, Environment.Promised, Connection.Justified;
      fileRemaining := fileRemaining - n;
    }

    /** Moves some of the file; n as Transfer. With 0 the rest of the file is given up, though it is not closed yet. */
    method SendSome() returns (n: int)
      requires Sending() && fileOpen && fileRemaining > 0 && FileTurn()
      modifies `fileRemaining, `lost, `strayed, env`transfers, env`sent, env`stalled, env`blocked, env`gone
      ensures n == Outcome(old(env.transfers), old(fileRemaining)) && env.transfers == Rest(old(env.transfers))
      ensures fileRemaining == old(fileRemaining) - (if n > 0 then n else 0)
      ensures if n > 0 then env.sent == old(env.sent) + old(FileRest())[..n] && FileRest() == old(FileRest())[n..]
              else env.sent == old(env.sent)
      ensures lost == old(lost) + (if n == 0 && !closed then fileRemaining else 0)
      ensures env.stalled == (old(env.stalled) || n == 0) && Marks(n, old(env.blocked))
      ensures if n == 0 then Keeps(Unsent(writeBuf, writePos, false, fileData, fileRemaining), true, env.stalled)
              else Sending()
    {
      hide WireInv, MemoryInv, PipelineInv, IntakeInv, Unsent, Stream, Outcome, Environment.Promised;
      ghost var sent, was := env.sent, env.stalled;
      Strings3(sent, "", "");
      n := env.Transfer(FileRest());
      if n > 0 {
        WireFileSome(answers, Met(|requests|, refused), sent, writeBuf, writePos, fileData, fileRemaining, n, closed,
                     graceful, lost, strayed, was);
        if closed { strayed := true; }
        MoveFile(n);
      } else if n == 0 {
        WireFileShort(answers, Met(|requests|, refused), sent, writeBuf, writePos, fileData, fileRemaining, closed,
                      graceful, lost, strayed, was);
        lost := lost + if closed then 0 else fileRemaining;
      }
    }

    /** The file is closed, with u still unsent. */
    method CloseFile(ghost u: string)
      requires Keeps(u, true, env.stalled) && fileOpen && FileTurn()
      modifies `fileOpen, `fileRemaining
      ensures !fileOpen && fileRemaining == 0 && Holds(u)
    {
      hide WireInv, MemoryInv, PipelineInv, IntakeInv, Unsent;
      MemoryFacts(answers, BufferedBytes(), throttled, fileOpen, awaiting, closed);
      MemoryShrinks(answers, BufferedBytes(), throttled, fileOpen, awaiting, closed, BufferedBytes(), throttled, false);
      FileEnds();
      fileOpen, fileRemaining := false, 0;
    }

    /** Sends the file until done, or until a transfer stops it; 0 gives up its rest. */
    method SendRest() returns (n: int)
      requires Sending() && fileOpen && FileTurn()
      modifies `fileRemaining, `lost, `strayed, env`transfers, env`sent, env`stalled, env`blocked, env`gone
      ensures var c := CourseOf(old(env.transfers), old(fileRemaining));
        && n == c.end && env.transfers == c.left && fileRemaining == old(fileRemaining) - c.moved
        && env.sent == old(env.sent) + old(FileRest())[..c.moved]
        && lost == old(lost) + (if n == 0 && !closed then fileRemaining else 0)
        && env.stalled == (old(env.stalled) || n == 0) && Marks(n, old(env.blocked))
      ensures if n == 0 then Keeps(Unsent(writeBuf, writePos, false, fileData, fileRemaining), true, env.stalled)
              else Sending()
    {
      hide Connection.Sending, Connection.Keeps, CourseOf, Outcome, Unsent;
      SendingBounds();
      ghost var sent, transfers, whole := env.sent, env.transfers, FileRest();
      hide Underway;
      UnderwayStarts(whole, sent, transfers);
      n := 1;
      while fileRemaining > 0
        invariant Sending() && fileRemaining <= |whole| <= |fileData| && lost == old(lost)
        invariant env.stalled == old(env.stalled) && old(env.blocked) <= env.blocked
        invariant Underway(whole, sent, transfers, env.sent, env.transfers, FileRest())
        decreases fileRemaining
      {
        UnderwayMoves(whole, sent, transfers, env.sent, env.transfers, FileRest());
        n := SendSome();
        if n <= 0 { return n; }
        n := 1;
      }
      UnderwayEnds(whole, sent, transfers, env.sent, env.transfers, FileRest());
    }

    /** False when the socket would block; otherwise the file is closed, sent or not. */
    method DrainFile() returns (done: bool)
      requires Sending() && fileOpen && FileTurn()
      modifies `closed, `fileOpen, `fileRemaining, `lost, `strayed, env`transfers, env`sent, env`stalled, env`blocked,
               env`gone
      ensures Valid() && (done <==> !fileOpen)
      ensures var c := CourseOf(old(env.transfers), old(fileRemaining));
        && done == (c.end != -1) && env.transfers == c.left && env.sent == old(env.sent) + old(FileRest())[..c.moved]
        && closed == (old(closed) || c.end == -2) && env.stalled == (old(env.stalled) || c.end == 0)
        && (fileOpen ==> fileRemaining == old(fileRemaining) - c.moved)
        && lost == old(lost) + if c.end == 0 && !old(closed) then old(fileRemaining) - c.moved else 0
    {
      hide WireInv, MemoryInv, PipelineInv, IntakeInv, Unsent, CourseOf, Outcome;
      ghost var c := CourseOf(env.transfers, fileRemaining);
      var n := SendRest();
      if n == -1 { return false; }
      UnsentNoFile(writeBuf, writePos, fileData, fileRemaining);
      ghost var u := Unsent(writeBuf, writePos, n == -2 && fileOpen, fileData, fileRemaining);
      CloseFile(u);
      if n == -2 {
        GiveUp(u, false, env.stalled);
      } else {
        UnsentNoFile(writeBuf, writePos, fileData, c.moved);
      }
      return true;
    }

    method DeliverFile(head: string, content: string)
      requires Holds(Unsent(writeBuf, writePos, false, fileData, fileRemaining) + (head + content))
      requires !closed && !fileOpen && !awaiting && Met(|requests|, refused) == |answers|
      requires BufferedBytes() <= HIGH_WATER && answers != [] && |head| <= |Buffered(answers[|answers|-1])|
      modifies `closed, `throttled, `writeBuf, `writePos, `fileOpen, `fileData, `fileRemaining, `lost, `strayed,
               env`transfers, env`sent, env`stalled, env`blocked, env`gone
      ensures Valid() && old(env.sent) <= env.sent
      ensures FileStarted(head, content, old(Outbound())) && closed == old(FileFails(|head|, |content|))
    {
      hide WireInv, MemoryInv, PipelineInv, IntakeInv, Unsent, Buffered, CourseOf, FileThen;
      if writePos < |writeBuf| || fileOpen {
        Enqueue(head, content);
        if fileOpen {
          assert false;              // two files at once: not under the handlers' contract
        }
        MemoryFile(answers, BufferedBytes(), throttled, true);
        QueueFile(content);
        Tried();
      } else {
        StartNow(head, content);
      }
    }

    method StartNow(head: string, content: string)
      requires Holds(Unsent(writeBuf, writePos, false, fileData, fileRemaining) + (head + content))
      requires !closed && !fileOpen && !awaiting && Met(|requests|, refused) == |answers|
      requires writePos >= |writeBuf| && answers != [] && |head| <= |Buffered(answers[|answers|-1])|
      modifies `closed, `throttled, `writeBuf, `writePos, `fileOpen, `fileData, `fileRemaining, `lost, `strayed,
               env`transfers, env`sent, env`stalled, env`blocked, env`gone
      ensures Valid() && old(env.sent) <= env.sent
      ensures FileStarted(head, content, old(Outbound())) && closed == old(FileFails(|head|, |content|))
    {
      hide Connection.Keeps, Unsent, Buffered, CourseOf, Outcome, Met;
      ghost var sent, c := env.sent, CourseOf(env.transfers, |head|);
      ghost var f := FileThen(c, |content|);
      Strings3(sent, head[..c.moved], content[..f.moved]);
      Strings3(sent + head[..c.moved], "", "");
      assert content[..0] == "";
      var n := WriteNow(head, content, true);
      if n == -2 { return; }
      if n == 0 {
        NotQueued(content);
        return;
      }
      QueueFile(content);
      if n == 1 {
        var done := DrainFile();
      } else {
        Tried();
      }
    }

    /**
     * Where a file answer is after its start: head and content gone as far as their transfers went, or queued
     * behind a tail.
     */
    ghost predicate FileStarted(head: string, content: string, was: Output)
      reads `fileOpen, `fileData, `fileRemaining, `throttled, `writeBuf, `writePos, `lost, env`sent, env`transfers,
            env`stalled
    {
      && writePos <= |writeBuf|
      && if was.pos < |was.buf| then
           && fileOpen && fileData == content && fileRemaining == |content|
           && writeBuf == was.buf + head && writePos == was.pos && lost == was.lost
           && throttled == (was.throttled || |writeBuf| - writePos > HIGH_WATER)
           && env.sent == was.sent && env.transfers == was.transfers && env.stalled == was.stalled
         else
           var c := CourseOf(was.transfers, |head|);
           var f := FileThen(c, |content|);
           && env.sent == was.sent + (head[..c.moved] + content[..f.moved])
           && env.transfers == f.left && env.stalled == (was.stalled || f.end == 0)
           && fileOpen == (f.end == -1) && (fileOpen ==> fileData == content && fileRemaining == |content| - f.moved)
           && writeBuf[writePos..] == (if c.end == -1 then head[c.moved..] else "") && throttled == was.throttled
           && lost == was.lost + if f.end == 0 then |head| - c.moved + (|content| - f.moved) else 0
    }

    /** Nothing is ahead of a file answer, and a transfer of it finds the peer gone. */
    predicate FileFails(head: nat, size: nat)
      reads `writeBuf, `writePos, env`transfers
    {
      writePos >= |writeBuf| && FileThen(CourseOf(env.transfers, head), size).end == -2
    }

    /** The file is given up with what was left of its head. */
    method NotQueued(content: string)
      requires Keeps(Unsent(writeBuf, writePos, false, fileData, fileRemaining) + content, true, env.stalled)
      requires !closed && !fileOpen && writePos >= |writeBuf| && env.stalled && !awaiting
      modifies `lost
      ensures Valid() && lost == old(lost) + |content|
    {
      hide WireInv, MemoryInv, PipelineInv, IntakeInv, Unsent;
      WireGivenUp(answers, Met(|requests|, refused), env.sent,
                  Unsent(writeBuf, writePos, false, fileData, fileRemaining), content, graceful, lost, strayed,
                  env.stalled);
      MemoryFacts(answers, BufferedBytes(), throttled, true, awaiting, closed);
      MemoryShrinks(answers, BufferedBytes(), throttled, true, awaiting, closed, BufferedBytes(), throttled, false);
      lost := lost + |content|;
    }

    method StartFile(content: string, mime: string, close: bool, ghost k: nat)
      requires Valid() && !closed && Due(k) && Proper(File(mime, content, close))
      modifies `closed, `awaiting, `answeredInDispatch, `throttled, `writeBuf, `writePos, `lost, `strayed,
               `fileOpen, `fileData, `fileRemaining, `deferred, `answers, env`transfers, env`sent, env`stalled,
               env`blocked, env`gone
      ensures Valid() && k == |old(answers)| && old(env.sent) <= env.sent && old(answers) <= answers
      ensures Begun(File(mime, content, close)) && closed == old(Refused(File(mime, content, close))) && !awaiting
    {
      hide Connection.Valid, Connection.Holds, Connection.Due, Connection.Proper, FileThen, Unsent;
      hide Wire, Buffered, Closes, Stream, Parse, FileHead, CourseOf;
      FileWire(mime, content, close);
      ResponseStarted(k, File(mime, content, close));
      DeliverFile(FileHead(mime, |content|, close), content);
    }

    method SendOpened(content: string, mime: string, ghost k: nat)
      requires Valid() && !closed && Due(k) && Proper(File(mime, content, AsLast()))
      modifies `closed, `awaiting, `answeredInDispatch, `closeAfterSend, `throttled, `mask, `writeBuf, `writePos,
               `lost, `strayed,
               `fileOpen, `fileData, `fileRemaining, `deferred, `answers, `graceful,
               env`transfers, env`sent, env`stalled, env`blocked, env`registered, env`arrivals, env`received, env`gone
      ensures Valid() && Grown(old(Now()), Now()) && k == |old(answers)| && Sent(File(mime, content, old(AsLast())))
    {
      hide Connection.Valid, Connection.Holds, Connection.MaskOk, Connection.Tuned, Connection.Due, Connection.Proper,
        Connection.Begun, Connection.AsLast,
        Connection.Refused, Unsent, Wanted, Grown;
      hide Wire, Buffered, Closes, Stream, Parse, FileHead, CourseOf;
      Bounds();
      ghost var was := Now();
      var close := AsLast();
      StartFile(content, mime, close, k);
      AfterResponse();
      assert ClosedBy(File(mime, content, close));
      Since(was);
    }

    method SendFile(source: FileSource, mime: string, ghost k: nat)
      requires Valid() && (closed || (Due(k) && Proper(FileAnswer(source, mime, AsLast()))))
      modifies `closed, `awaiting, `answeredInDispatch, `closeAfterSend, `throttled, `mask, `writeBuf, `writePos,
               `lost, `strayed,
               `fileOpen, `fileData, `fileRemaining, `deferred, `answers, `graceful,
               env`transfers, env`sent, env`stalled, env`blocked, env`registered, env`arrivals, env`received, env`gone
      ensures Valid() && Grown(old(Now()), Now())
      ensures if old(closed) then unchanged(this) && unchanged(env)
              else k == |old(answers)| && Sent(FileAnswer(source, mime, old(AsLast())))
    {
      hide Connection.Valid, Connection.Sent, Connection.Proper, Connection.Due, Grown;
      hide Wire, Buffered, Closes, Stream, Parse, Marked, SaysClose, FileHead, NotFound, Serialized, CourseOf;
      StillGrown(Now());
      if closed { return; }
      match source
      case Missing => SendResponse(NotFound("file not readable"), k);
      case NotRegular => SendResponse(NotFound("not a regular file"), k);
      case Regular(content) => SendOpened(content, mime, k);
    }

    // ── Writing what was held back ──

    function Tail(): (tail: string)
      reads `writeBuf, `writePos
      ensures writePos <= |writeBuf| ==> |tail| == |writeBuf| - writePos
    {
      if writePos <= |writeBuf| then writeBuf[writePos..] else ""
    }

    /** How the writes of the tail will go. */
    function TailCourse(): Course
      reads `writeBuf, `writePos, env`transfers
    {
      CourseOf(env.transfers, |Tail()|)
    }

    /** Writes the tail until it is out (1), or until a transfer stops it. */
    method DrainTail() returns (n: int)
      requires Valid() && !closed
      modifies `closed, `throttled, `writePos, env`transfers, env`sent, env`stalled, env`blocked, env`gone
      ensures Valid() && writePos <= |writeBuf|
      ensures var c, tail := old(TailCourse()), old(Tail());
        && n == c.end && closed == (n == 0) && env.transfers == c.left && env.sent == old(env.sent) + tail[..c.moved]
        && env.stalled == (old(env.stalled) || n == 0) && (n == -2 ==> env.gone > 0)
        && Tail() == tail[c.moved..] && throttled == (old(throttled) && |tail| - c.moved > LOW_WATER)
    {
      hide Connection.Valid, Connection.Tail, CourseOf, Outcome;
      Bounds();
      ghost var tail, sent, transfers := Tail(), env.sent, env.transfers;
      hide Underway;
      UnderwayStarts(tail, sent, transfers);
      while writePos < |writeBuf|
        invariant Valid() && !closed && writePos <= |writeBuf| && env.stalled == old(env.stalled)
        invariant Underway(tail, sent, transfers, env.sent, env.transfers, Tail())
        invariant throttled == (old(throttled) && BufferedBytes() > LOW_WATER)
        decreases BufferedBytes()
      {
        UnderwayMoves(tail, sent, transfers, env.sent, env.transfers, Tail());
        n := DrainSome();
        if n <= 0 { return n; }
      }
      UnderwayEnds(tail, sent, transfers, env.sent, env.transfers, Tail());
      n := 1;
    }

    /** False when the socket would block; otherwise the tail is out, or the connection given up. */
    method DrainBuffer() returns (done: bool)
      requires Valid() && !closed
      modifies `closed, `throttled, `writeBuf, `writePos, env`transfers, env`sent, env`stalled, env`blocked, env`gone
      ensures Valid() && (done ==> FileTurn())
      ensures var c, tail := old(TailCourse()), old(Tail());
        && done == (c.end != -1) && closed == (c.end == -2 || c.end == 0)
        && env.transfers == c.left && env.sent == old(env.sent) + tail[..c.moved]
        && env.stalled == (old(env.stalled) || c.end == 0)
        && Tail() == (if c.end == -2 then "" else tail[c.moved..])
        && throttled == (old(throttled) && |tail| - c.moved > LOW_WATER)
    {
      hide Connection.Valid, CourseOf;
      var n := DrainTail();
      if n == -2 {
        DropTail();
      } else if n == 1 {
        ClearTail();
      }
      done := n != -1;
    }

    /** Nothing of the tail is left. */
    method ClearTail()
      requires Valid() && writePos >= |writeBuf|
      modifies `writeBuf, `writePos
      ensures Valid() && writeBuf == "" && writePos == 0
    {
      hide WireInv, MemoryInv, PipelineInv, IntakeInv, Unsent;
      EmptyTail(writeBuf, writePos, fileOpen, fileData, fileRemaining);
      Bounds();
      writeBuf, writePos := "", 0;
    }

    method DropTail()
      requires Valid() && !closed && LetGo()
      modifies `closed, `writeBuf, `writePos
      ensures Valid() && closed && writeBuf == "" && writePos == 0
    {
      hide WireInv, MemoryInv, PipelineInv, IntakeInv, Unsent, Connection.Keeps;
      Dropped();
      closed, writeBuf, writePos := true, "", 0;
      Assembled();
    }

    lemma Dropped()
      requires Valid() && !closed
      ensures Fields(false)
      ensures WireInv(answers, Met(|requests|, refused), env.sent, Unsent("", 0, fileOpen, fileData, fileRemaining),
                      true, graceful, lost, strayed, env.stalled)
      ensures MemoryInv(answers, 0, throttled, fileOpen, awaiting, true)
      ensures PipelineInv(framing, requests, answers, env.calls, late, refused, parseError, awaiting, handling,
                          stopReading, closeAfterSend, true, fileOpen, draining, drainMark, deferred)
      ensures IntakeInv(framing.judge, requests, partial, seen, env.received, refused, pendingIn, true, stopReading,
                        dispatching)
    {
      hide WireInv, MemoryInv, PipelineInv, IntakeInv, Unsent;
      var u := Unsent(writeBuf, writePos, fileOpen, fileData, fileRemaining);
      KeptClosed(u, false, env.stalled);
      WireClosed(answers, Met(|requests|, refused), env.sent, u, Unsent("", 0, fileOpen, fileData, fileRemaining),
                 true, graceful, lost, strayed, env.stalled, env.stalled);
      MemoryFacts(answers, BufferedBytes(), throttled, fileOpen, awaiting, closed);
      MemoryShrinks(answers, BufferedBytes(), throttled, fileOpen, awaiting, true, 0, throttled, fileOpen);
    }

    /**
     * One transfer of the tail: below the low mark the throttle goes, and one that moves nothing ends the
     * connection.
     */
    method DrainSome() returns (n: int)
      requires Valid() && !closed && writePos < |writeBuf|
      modifies `closed, `throttled, `writePos, env`transfers, env`sent, env`stalled, env`blocked, env`gone
      ensures Valid() && (closed <==> n == 0)
      ensures n == Outcome(old(env.transfers), old(|writeBuf| - writePos)) && env.transfers == Rest(old(env.transfers))
      ensures old(writePos) <= writePos <= |writeBuf|
      ensures BufferedBytes() == old(BufferedBytes()) - if n > 0 then n else 0
      ensures if n > 0 then env.sent == old(env.sent) + old(Tail())[..n] && Tail() == old(Tail())[n..]
              else env.sent == old(env.sent) && writePos == old(writePos)
      ensures throttled == (old(throttled) && !(n > 0 && BufferedBytes() <= LOW_WATER))
      ensures env.stalled == (old(env.stalled) || n == 0) && (n == -2 ==> env.gone > 0)
    {
      hide WireInv, MemoryInv, PipelineInv, IntakeInv, Unsent, Stream, Outcome;
      ghost var sent, was := env.sent, env.stalled;
      Strings3(sent, "", "");
      n := env.Transfer(Tail());
      if n > 0 {
        WireTailSome(answers, Met(|requests|, refused), sent, writeBuf, writePos, fileOpen, fileData, fileRemaining, n,
                     graceful, lost, strayed, was);
        TailGone(n);
      } else if n == 0 {
        GiveUp(Unsent(writeBuf, writePos, fileOpen, fileData, fileRemaining), false, was);
      }
    }

    method TailGone(n: nat)
      requires !closed && writePos + n <= |writeBuf| && n > 0
      requires Holds(Unsent(writeBuf, writePos + n, fileOpen, fileData, fileRemaining))
      modifies `throttled, `writePos
      ensures Valid() && writePos == old(writePos) + n && Tail() == old(Tail())[n..]
      ensures throttled == (old(throttled) && BufferedBytes() > LOW_WATER)
    {
      hide WireInv, MemoryInv, PipelineInv, IntakeInv, Unsent;
      ghost var b, t := BufferedBytes(), throttled;
      MemoryFacts(answers, b, t, fileOpen, awaiting, closed);
      writePos := writePos + n;
      if throttled && BufferedBytes() <= LOW_WATER { throttled := false; }
      MemoryShrinks(answers, b, t, fileOpen, awaiting, closed, BufferedBytes(), throttled, fileOpen);
    }

    function FileTail(): string
      reads `fileOpen, `fileData, `fileRemaining
    {
      if fileOpen && fileRemaining <= |fileData| then fileData[|fileData|-fileRemaining..] else ""
    }

    /** How the transfers of the file will go, once the socket has not blocked the tail. */
    function FileCourse(): Course
      reads `writeBuf, `writePos, `fileOpen, `fileData, `fileRemaining, env`transfers
    {
      if TailCourse().end == -1 then Course(1, 0, TailCourse().left) else CourseOf(TailCourse().left, |FileTail()|)
    }

    lemma FileCourses()
      requires writePos <= |writeBuf| && (fileOpen ==> fileRemaining <= |fileData|)
      ensures if fileOpen && TailCourse().end != -1
              then FileTail() == FileRest() && FileCourse() == CourseOf(TailCourse().left, fileRemaining)
              else FileCourse() == Course(1, 0, TailCourse().left) && FileTail()[..0] == ""
      ensures TailCourse().moved <= |Tail()|
      ensures TailCourse().end == -1 ==> TailCourse().moved < |Tail()| && writePos < |writeBuf|
    {
      NothingMoves(TailCourse().left);
    }

    /** The tail went as its transfers go, and then the file, though the tail may have closed the connection. */
    twostate predicate Drained()
      reads env`sent, env`transfers, env`stalled
    {
      var c, f := old(TailCourse()), old(FileCourse());
      && env.sent == old(env.sent) + old(Tail())[..c.moved] + old(FileTail())[..f.moved]
      && env.transfers == f.left && env.stalled == (old(env.stalled) || c.end == 0 || f.end == 0)
    }

    /** The tail, then the file; false when the socket would block. */
    method DrainBoth() returns (done: bool)
      requires Valid() && !closed
      modifies `closed, `throttled, `writeBuf, `writePos, `fileOpen, `fileRemaining, `lost, `strayed, env`transfers,
               env`sent, env`stalled, env`blocked, env`gone
      ensures Valid() && Drained() && old(env.sent) <= env.sent
      ensures var c, f := old(TailCourse()), old(FileCourse());
        done == (c.end != -1 && f.end != -1) && closed == (c.end == -2 || c.end == 0 || f.end == -2)
      ensures if done then !closed ==> !HasPendingWrites() else HasPendingWrites() && old(HasPendingWrites())
      ensures (throttled ==> old(throttled)) && (fileOpen ==> old(fileOpen))
    {
      hide Connection.Valid, CourseOf, Outcome, Connection.Sending;
      Bounds();
      FileCourses();
      ghost var sent, rest := env.sent + Tail()[..TailCourse().moved], FileTail()[..FileCourse().moved];
      hide Connection.TailCourse, Connection.FileCourse, Connection.FileTail;
      done := DrainBuffer();
      if done && fileOpen {
        Sends();
        done := DrainFile();
      } else {
        Strings3(sent, "", "");
      }
    }

    /** True when there is still something to write. */
    method OnWritable() returns (more: bool)
      requires Valid() && !dispatching && !handling
      modifies `closed, `closeAfterSend, `mask, `graceful, `throttled, `writeBuf, `writePos, `fileOpen, `fileRemaining,
               `lost, `strayed,
               env`transfers, env`sent, env`stalled, env`blocked, env`registered, env`arrivals, env`received, env`gone
      ensures Valid() && (old(closed) ==> closed) && Grown(old(Now()), Now())
      ensures more ==>
        HasPendingWrites() && old(HasPendingWrites()) && mask == old(mask) && closeAfterSend == old(closeAfterSend)
      ensures !more && !closed ==> !HasPendingWrites() && MaskOk() && EndPending()
      ensures (throttled ==> old(throttled)) && (fileOpen ==> old(fileOpen))
      ensures !closed ==> env.received == old(env.received) && env.arrivals == old(env.arrivals)
      ensures old(!closed) ==> Drained() && more == old(TailCourse().end == -1 || FileCourse().end == -1)
      ensures old(!closed && TailCourse().end == -1) ==> !closed
      ensures old(!closed && (TailCourse().end == -2 || TailCourse().end == 0 || FileCourse().end == -2)) ==> closed
    {
      hide Connection.Valid, Connection.MaskOk, Connection.Tuned, Connection.Drained, CourseOf, Outcome, Grown, Wanted;
      StillGrown(Now());
      if closed { return false; }
      ghost var was := Now();
      var drained := DrainBoth();
      Since(was);
      if !drained { return true; }
      if throttled && !HasPendingWrites() {
        Unthrottle();
      }
      AfterResponse();
      Since(was);
      return false;
    }

    method Unthrottle()
      requires Valid() && !HasPendingWrites()
      modifies `throttled
      ensures Valid() && !throttled
    {
      hide WireInv, MemoryInv, PipelineInv, IntakeInv, Unsent;
      MemoryShrinks(answers, BufferedBytes(), throttled, fileOpen, awaiting, closed, BufferedBytes(), false, fileOpen);
      throttled := false;
    }

    // ── Requests ──

    lemma Unworked()
      requires Valid() && !handling && Open()
      ensures !refused && Met(|requests|, refused) == |answers| == |env.calls| && deferred == {}
      ensures BufferedBytes() <= HIGH_WATER && !closeAfterSend
      ensures WireInv(answers, |answers| + 1, env.sent, Unsent(writeBuf, writePos, fileOpen, fileData, fileRemaining),
                      closed, graceful, lost, strayed, env.stalled)
    {
      hide WireInv, MemoryInv, PipelineInv, IntakeInv, Unsent;
      Facts(Unsent(writeBuf, writePos, fileOpen, fileData, fileRemaining), false, env.stalled);
      WireMet(answers, |answers|, |answers| + 1, env.sent,
              Unsent(writeBuf, writePos, fileOpen, fileData, fileRemaining), lost, strayed, env.stalled);
    }

    /** A request goes to work, or a malformed one. */
    lemma WorkBegins(request: string, error: string)
      requires Valid() && !handling && Open()
      ensures PipelineInv(framing, requests + [request], answers, env.calls, late, false, parseError, false, true,
                          stopReading, !framing.keepAlive(request), closed, fileOpen, draining, drainMark, deferred)
      ensures PipelineInv(framing, requests, answers, env.calls, late, true, error, false, true, stopReading,
                          closeAfterSend, closed, fileOpen, draining, drainMark, deferred)
    {
      Unworked();
      hide WireInv, MemoryInv, TurnInv, LastInv, EndInv, DrainInv, WorkInv, IntakeInv, Unsent;
      TurnStarts(|answers|, |answers|, refused, deferred, false);
      TurnStarts(|answers|, |answers|, refused, deferred, true);
      LastStarts(framing.keepAlive, requests, answers, closeAfterSend, request);
      LastRefuses(framing.keepAlive, requests, answers, closeAfterSend);
      EndStarts(framing, requests, draining, closeAfterSend, closed, request);
      DrainStarts(draining, answers, |answers|, drainMark);
      WorkStarts(requests, answers, env.calls, late, parseError, request, error);
    }

    /** The parser takes a byte. */
    lemma ByteTaken(b: char)
      requires Valid() && !handling && Open() && dispatching && seen + [b] <= env.received
      ensures var message := partial + [b];
        match framing.judge(message)
        case More => IntakeInv(framing.judge, requests, message, seen + [b], env.received, false, pendingIn, closed,
                               stopReading, dispatching)
        case Complete => IntakeInv(framing.judge, requests + [message], "", seen + [b], env.received, false, pendingIn,
                                   closed, stopReading, dispatching)
        case Malformed(_) => IntakeInv(framing.judge, requests, partial, seen, env.received, true, pendingIn, closed,
                                       stopReading, dispatching)
    {
      Unworked();
      hide WireInv, MemoryInv, PipelineInv, InputInv, Unsent;
      InputByte(framing.judge, requests, partial, seen, env.received, b);
    }

    /** The last byte of a request: it goes to work. */
    method BeginRequest(message: string, ghost b: char)
      requires Valid() && dispatching && !handling && Open() && seen + [b] <= env.received
      requires message == partial + [b] && framing.judge(message) == Complete
      modifies `partial, `answeredInDispatch, `closeAfterSend, `requests, `seen, `handling
      ensures Valid() && handling && Due(|answers|) && !answeredInDispatch && !refused && |env.calls| == |requests| - 1
      ensures requests == old(requests) + [message] && seen == old(seen) + [b]
      ensures closeAfterSend == !framing.keepAlive(message)
    {
      hide WireInv, MemoryInv, PipelineInv, IntakeInv, Unsent, Connection.Backed, Environment.Promised;
      var closing := closeAfterSend || !framing.keepAlive(message);
      RequestBegins(message, b, closing);
      hide Connection.Keeps;
      requests, seen, handling, partial := requests + [message], seen + [b], true, "";
      answeredInDispatch, closeAfterSend := false, closing;
      Assembled();
    }

    lemma RequestBegins(message: string, b: char, closing: bool)
      requires Valid() && dispatching && !handling && Open() && seen + [b] <= env.received
      requires message == partial + [b] && framing.judge(message) == Complete
      requires closing == (closeAfterSend || !framing.keepAlive(message))
      ensures Fields(false) && !refused && |requests| == |answers| == |env.calls|
      ensures closing == !framing.keepAlive(message)
      ensures WireInv(answers, |answers| + 1, env.sent, Unsent(writeBuf, writePos, fileOpen, fileData, fileRemaining),
                      closed, graceful, lost, strayed, env.stalled)
      ensures MemoryInv(answers, BufferedBytes(), throttled, fileOpen, awaiting, closed)
      ensures PipelineInv(framing, requests + [message], answers, env.calls, late, false, parseError, false, true,
                          stopReading, closing, closed, fileOpen, draining, drainMark, deferred)
      ensures IntakeInv(framing.judge, requests + [message], "", seen + [b], env.received, false, pendingIn, closed,
                        stopReading, dispatching)
    {
      hide WireInv, MemoryInv, PipelineInv, IntakeInv, Unsent;
      Unworked();
      WorkBegins(message, parseError);
      ByteTaken(b);
    }

    /** The newest answer is the one the handler gave, marked perhaps. */
    ghost predicate Answered(action: Action)
      reads `answers
    {
      answers != [] && Fits(action, answers[|answers|-1], true)
    }

    /** ... and not marked. */
    ghost predicate AsGiven(action: Action)
      reads `answers
    {
      answers != [] && Fits(action, answers[|answers|-1], false)
    }

    /** The handler is given the request. */
    method Ask(message: string) returns (action: Action)
      requires Valid() && handling && !closed && Due(|answers|) && !refused && |env.calls| == |requests| - 1
      requires requests[|requests|-1] == message
      modifies env`actions, env`calls
      ensures Valid() && action == NextAction(old(env.actions)) && env.calls == old(env.calls) + [(message, action)]
      ensures env.actions == (if old(env.actions) == [] then [] else old(env.actions)[1..])
    {
      hide WireInv, MemoryInv, PipelineInv, IntakeInv, Unsent;
      HandlerAsked(NextAction(env.actions));
      action := env.Handle(message);
    }

    lemma HandlerAsked(action: Action)
      requires Valid() && handling && !closed && Due(|answers|) && !refused && |env.calls| == |requests| - 1
      ensures PipelineInv(framing, requests, answers, env.calls + [(requests[|requests|-1], action)], late, refused,
                          parseError, awaiting, handling, stopReading, closeAfterSend, closed, fileOpen, draining,
                          drainMark, deferred)
    {
      hide WireInv, MemoryInv, TurnInv, LastInv, EndInv, DrainInv, WorkInv, IntakeInv, Unsent;
      WorkAsked(requests, answers, env.calls, late, parseError, action);
    }

    /** What the last handler did, when it has answered or is to. */
    ghost predicate Answering(action: Action)
      reads this, env
    {
      handling && !refused && |answers| == |env.calls| - 1 && env.calls[|answers|].1 == action
    }

    lemma ProperReply(resp: Response, given: Response, last: bool, action: Action)
      requires Answering(action) && (action == Fill(given) || action == SendNow(given))
      requires resp == (if last then SetClose(given) else given) && (AsLast() ==> last)
      ensures resp == Marked(resp, AsLast()) && Proper(Reply(resp))
    {
      SetCloseSaysClose(given);
      hide SetClose, BadRequest;
    }

    lemma ProperNow(given: Response)
      requires Answering(SendNow(given))
      ensures Proper(Reply(Marked(given, AsLast())))
    {
      MarkedCloses(given, AsLast());
      hide SetClose, SaysClose, BadRequest;
    }

    lemma ProperFile(source: FileSource, mime: string)
      requires Answering(SendFileNow(source, mime))
      ensures Proper(FileAnswer(source, mime, AsLast()))
    {
      FileCloses(source, mime, AsLast());
      hide FileAnswer, BadRequest;
    }

    /** The handler fills its response, answers by itself, or defers. */
    method RunHandler(message: string) returns (resp: Response, isDeferred: bool)
      requires Valid() && handling && !closed && Due(|answers|) && !answeredInDispatch && !refused
      requires |env.calls| == |requests| - 1
      requires requests[|requests|-1] == message
      modifies `closed, `awaiting, `answeredInDispatch, `closeAfterSend, `throttled, `mask, `writeBuf, `writePos,
               `lost, `strayed,
               `fileOpen, `fileData, `fileRemaining, `deferred, `answers, `graceful, env
      ensures Valid() && env.received == old(env.received) && env.arrivals == old(env.arrivals)
      ensures Grown(old(Now()), Now())
      ensures closeAfterSend == old(closeAfterSend)
      ensures var action := NextAction(old(env.actions));
        && env.calls == old(env.calls) + [(message, action)]
        && (isDeferred <==> !action.Fill?) && (answeredInDispatch <==> action.SendNow? || action.SendFileNow?)
        && (action.Fill? ==> resp == action.resp)
        && (answeredInDispatch ==>
              Met(|requests|, refused) == |answers| == |old(answers)| + 1 && Answered(action)
              && (!AsLast() ==> AsGiven(action)))
        && (!answeredInDispatch ==> !closed && Due(|answers|) && Answering(action) && Unwritten())
    {
      hide Connection.Valid, Connection.MaskOk, Connection.Proper, Fits, Grown;
      resp, isDeferred := Response(200, "OK", [], "", false), true;
      StillGrown(Now());
      var action := Ask(message);
      ghost var mid := Now();
      CallGrown(old(Now()), (message, action));
      match action
      case Fill(r) => resp, isDeferred := r, false;
      case SendNow(_) =>
        AnswerNow(action);
        GrownThen(old(Now()), mid, Now());
      case SendFileNow(_, _) =>
        AnswerNow(action);
        GrownThen(old(Now()), mid, Now());
      case Defer =>
    }

    /** The handler sends its answer itself. */
    method AnswerNow(action: Action)
      requires Valid() && handling && !closed && Due(|answers|) && Answering(action)
      requires action.SendNow? || action.SendFileNow?
      modifies `closed, `awaiting, `answeredInDispatch, `closeAfterSend, `throttled, `mask, `writeBuf, `writePos,
               `lost, `strayed,
               `fileOpen, `fileData, `fileRemaining, `deferred, `answers, `graceful,
               env`transfers, env`sent, env`stalled, env`blocked, env`registered, env`arrivals, env`received, env`gone
      ensures Valid() && env.received == old(env.received) && env.arrivals == old(env.arrivals)
      ensures Grown(old(Now()), Now())
      ensures closeAfterSend == old(closeAfterSend) && answeredInDispatch
      ensures Met(|requests|, refused) == |answers| == |old(answers)| + 1
      ensures Answered(action) && (!AsLast() ==> AsGiven(action))
    {
      hide Connection.Valid, Connection.MaskOk, Connection.Proper, Connection.Started, Connection.ClosedBy;
      hide NotFound, FileAnswer, Marked, SetClose, SaysClose, CourseOf, Fits, Grown;
      Bounds();
      match action
      case SendNow(r) =>
        ProperNow(r);
        SendResponse(r, |answers|);
        MarkedFits(r, AsLast());
      case SendFileNow(source, mime) =>
        ProperFile(source, mime);
        SendFile(source, mime, |answers|);
        GivenFits(action, FileAnswer(source, mime, AsLast()), AsLast());
    }

    /** Nothing was written or queued, and no answer started. */
    twostate predicate Unwritten()
      reads `answers, `writeBuf, `writePos, `throttled, `fileOpen, `lost, `strayed, `closed,
            env`sent, env`transfers, env`stalled, env`registered
    {
      && answers == old(answers) && writeBuf == old(writeBuf) && writePos == old(writePos)
      && throttled == old(throttled)
      && fileOpen == old(fileOpen) && lost == old(lost) && strayed == old(strayed) && closed == old(closed)
      && env.sent == old(env.sent) && env.transfers == old(env.transfers) && env.stalled == old(env.stalled)
      && env.registered == old(env.registered)
    }

    /** The handler of the request whose answer is next left without one. */
    ghost predicate Deferred()
      reads `answers, env`calls
    {
      |answers| < |env.calls| && env.calls[|answers|].1.Defer?
    }

    lemma StopSet()
      requires Valid() && handling && (refused || draining || Ends(framing, requests))
      ensures PipelineInv(framing, requests, answers, env.calls, late, refused, parseError, awaiting, handling, true,
                          true, closed, fileOpen, draining, drainMark, deferred)
      ensures IntakeInv(framing.judge, requests, partial, seen, env.received, refused, pendingIn, closed, true,
                        dispatching)
    {
      hide WireInv, MemoryInv, TurnInv, LastInv, DrainInv, WorkInv, InputInv, Unsent, Ends;
      LastClosing(framing.keepAlive, requests, answers, refused, true, closed || closeAfterSend, true, true);
    }

    /** The request at work is the last. */
    method StopAfter()
      requires Valid() && handling && (refused || draining || Ends(framing, requests))
      modifies `closeAfterSend, `stopReading
      ensures Valid() && closeAfterSend && stopReading
    {
      hide WireInv, MemoryInv, PipelineInv, IntakeInv, Unsent, Ends;
      StopSet();
      closeAfterSend, stopReading := true, true;
    }

    lemma RequestEnds(owes: bool, due: set<nat>)
      requires Valid() && handling && |env.calls| == |requests|
      requires if owes then !closed && Due(|answers|) && !refused && Deferred()
               else Met(|requests|, refused) == |answers|
      requires refused || draining || (requests != [] && !framing.keepAlive(requests[|requests|-1])) ==>
        stopReading && closeAfterSend
      requires !stopReading && !owes ==> Fitting()
      requires due == if owes then {|answers|} else deferred
      ensures Fields(false)
      ensures MemoryInv(answers, BufferedBytes(), throttled, fileOpen, owes, closed)
      ensures PipelineInv(framing, requests, answers, env.calls, late, refused, parseError, owes, false, stopReading,
                          closeAfterSend, closed, fileOpen, draining, drainMark, due)
    {
      hide WireInv, MemoryInv, TurnInv, LastInv, EndInv, DrainInv, WorkInv, IntakeInv, Unsent, Fits, Ends;
      var met, ending := Met(|requests|, refused), stopReading || closed;
      AtWork();
      TurnEnds(met, |answers|, refused, fileOpen, closed, deferred, owes);
      if owes {
        MemoryFacts(answers, BufferedBytes(), throttled, fileOpen, awaiting, closed);
        MemoryOwes(answers, BufferedBytes(), throttled);
      }
      LastEnds(framing.keepAlive, requests, answers, refused, closed || closeAfterSend, ending,
               closed || closeAfterSend);
      EndEnds(framing, requests, refused, draining, stopReading, closeAfterSend, closed);
      DrainEnding(draining, answers, met, drainMark, true, ending);
      WorkEnds(requests, answers, env.calls, late, met, refused, parseError, ending, owes);
    }

    /** The newest answer is the last handler's, as it gave it. */
    ghost predicate Fitting()
      reads `answers, env`calls
    {
      0 < |answers| == |env.calls| && Fits(env.calls[|answers|-1].1, answers[|answers|-1], false)
    }

    lemma AtWork()
      requires Valid() && handling
      ensures !awaiting
    {
      hide WireInv, MemoryInv, PipelineInv, IntakeInv, Unsent;
      Facts(Unsent(writeBuf, writePos, fileOpen, fileData, fileRemaining), false, env.stalled);
    }

    /** Awaiting when the answer is deferred; the last request stops the reading. */
    method EndRequest(owes: bool, last: bool)
      requires Valid() && handling && |env.calls| == |requests|
      requires if owes then !closed && Due(|answers|) && !refused && Deferred()
               else Met(|requests|, refused) == |answers|
      requires refused || draining || (requests != [] && !framing.keepAlive(requests[|requests|-1])) ==> last
      requires last ==> refused || draining || Ends(framing, requests)
      requires !last && !owes ==> Fitting()
      modifies `awaiting, `deferred, `closeAfterSend, `stopReading, `handling
      ensures Valid() && !handling
      ensures awaiting == owes && (last ==> stopReading && closeAfterSend)
    {
      hide Connection.Valid, PipelineInv, MemoryInv, Connection.Due, Connection.Deferred, Connection.Fitting, Fits,
        Ends;
      if last { StopAfter(); }
      ghost var due := if owes then {|answers|} else deferred;
      RequestEnds(owes, due);
      SetEnded(owes, due);
    }

    /** The request no longer at work; its answer started or owed. */
    method SetEnded(owes: bool, ghost due: set<nat>)
      requires Valid() && MemoryInv(answers, BufferedBytes(), throttled, fileOpen, owes, closed)
      requires PipelineInv(framing, requests, answers, env.calls, late, refused, parseError, owes, false, stopReading,
                           closeAfterSend, closed, fileOpen, draining, drainMark, due)
      modifies `awaiting, `deferred, `handling
      ensures !handling && awaiting == owes && Valid()
    {
      hide WireInv, MemoryInv, PipelineInv, IntakeInv, Unsent;
      awaiting, deferred, handling := owes, due, false;
    }

    method SendFilled(resp: Response, last: bool)
      requires Valid() && !closed && Due(|answers|) && Answering(Fill(resp)) && (AsLast() ==> last)
      modifies `closed, `awaiting, `answeredInDispatch, `closeAfterSend, `throttled, `mask, `writeBuf, `writePos, `lost,
               `deferred, `answers, `graceful, env`transfers, env`sent, env`stalled, env`blocked, env`registered,
               env`arrivals,
               env`received, env`gone
      ensures Valid() && env.received == old(env.received) && env.arrivals == old(env.arrivals)
      ensures Grown(old(Now()), Now())
      ensures closeAfterSend == old(closeAfterSend) && Met(|requests|, refused) == |answers|
      ensures |answers| == |old(answers)| + 1 && Answered(Fill(resp)) && (!last ==> AsGiven(Fill(resp)))
    {
      hide WireInv, MemoryInv, PipelineInv, IntakeInv, Unsent, Connection.MaskOk, Environment.Promised;
      hide SetClose, Marked, Connection.Proper;
      var filled := if last then SetClose(resp) else resp;
      ProperReply(filled, resp, last, Fill(resp));
      SendResponse(filled, |answers|);
      GivenFits(Fill(resp), Reply(filled), last);
    }

    /** The request's answer goes out, or is owed. */
    method AnswerRequest(message: string) returns (owes: bool, wsRefused: bool)
      requires Valid() && handling && !closed && Due(|answers|) && !answeredInDispatch && !refused
      requires |env.calls| == |requests| - 1
      requires requests[|requests|-1] == message && (closeAfterSend ==> !framing.keepAlive(message))
      modifies `closed, `awaiting, `answeredInDispatch, `closeAfterSend, `throttled, `mask, `writeBuf, `writePos,
               `lost, `strayed,
               `fileOpen, `fileData, `fileRemaining, `deferred, `answers, `graceful, env
      ensures Valid() && env.received == old(env.received) && env.arrivals == old(env.arrivals)
      ensures Grown(old(Now()), Now())
      ensures closeAfterSend == old(closeAfterSend) && (wsRefused ==> framing.websocket(message))
      ensures var action := NextAction(old(env.actions));
        && env.calls == old(env.calls) + [(message, action)] && owes == action.Defer?
        && (owes ==> !closed && Due(|answers|) && Unwritten())
        && (!owes ==> 0 < Met(|requests|, refused) == |answers| == |env.calls| && Answered(action))
        && (!owes && !AsLast() && !wsRefused ==> AsGiven(action))
      ensures !closed ==> (wsRefused <==> framing.websocket(message))
    {
      hide Connection.Valid, Connection.MaskOk, SetClose, Fits, Grown;
      var resp, isDeferred := RunHandler(message);
      wsRefused := !closed && framing.websocket(message);
      if !closed && !isDeferred {
        ghost var mid := Now();
        SendFilled(resp, wsRefused || AsLast());
        GrownThen(old(Now()), mid, Now());
      }
      owes := isDeferred && !answeredInDispatch;
    }

    method Dispatch(message: string)
      requires Valid() && handling && !closed && Due(|answers|) && !answeredInDispatch && !refused && !hold
      requires !stopReading
      requires |env.calls| == |requests| - 1 && requests[|requests|-1] == message
      requires closeAfterSend ==> !framing.keepAlive(message)
      modifies `closed, `awaiting, `answeredInDispatch, `closeAfterSend, `throttled, `mask, `writeBuf, `writePos,
               `lost, `strayed,
               `fileOpen, `fileData, `fileRemaining, `deferred, `answers, `graceful, `stopReading, `handling, `hold, env
      ensures Valid() && dispatching && !handling && hold == !Open() && Grown(old(Now()), Now())
      ensures env.received == old(env.received) && env.arrivals == old(env.arrivals)
      ensures var action := NextAction(old(env.actions));
        && env.calls == old(env.calls) + [(message, action)] && awaiting == action.Defer?
        && (awaiting ==> Unwritten())
        && (!awaiting ==> 0 < Met(|requests|, refused) == |answers| == |env.calls| && Answered(action))
        && (!awaiting && !draining && !Ends(framing, requests) ==> AsGiven(action))
    {
      hide Connection.Valid, Connection.MaskOk, Fits, Grown, Connection.Unwritten;
      Bounds();
      var owes, wsRefused := AnswerRequest(message);
      EndRequest(owes, !framing.keepAlive(message) || wsRefused || draining);
      if closed || Owed() || stopReading || throttled {
        SetHold(true);
      }
    }

    method SetHold(on: bool)
      requires Valid()
      modifies `hold
      ensures Valid() && hold == on
    {
      hide WireInv, MemoryInv, PipelineInv, IntakeInv, Unsent;
      hold := on;
    }

    method SetConsumed(n: nat)
      requires Valid()
      modifies `consumed
      ensures Valid() && consumed == n
    {
      hide WireInv, MemoryInv, PipelineInv, IntakeInv, Unsent;
      consumed := n;
    }

    // ── Input ──

    method TakeByte(b: char)
      requires Valid() && dispatching && Open() && !handling && seen + [b] <= env.received
      requires framing.judge(partial + [b]) == More
      modifies `partial, `seen
      ensures Valid() && seen == old(seen) + [b] && Grown(old(Now()), Now())
    {
      hide WireInv, MemoryInv, PipelineInv, IntakeInv, Unsent;
      StillGrown(Now());
      Unworked();
      ByteTaken(b);
      partial, seen := partial + [b], seen + [b];
    }

    /** A byte no request may have: the 400 is due. */
    method Refuse(b: char, error: string)
      requires Valid() && dispatching && Open() && !handling && seen + [b] <= env.received
      requires framing.judge(partial + [b]) == Malformed(error)
      modifies `parseError, `refused, `handling
      ensures Valid() && handling && refused && Due(|answers|) && parseError == error && |env.calls| == |requests|
      ensures Grown(old(Now()), Now())
    {
      hide WireInv, MemoryInv, PipelineInv, IntakeInv, Unsent;
      StillGrown(Now());
      Unworked();
      WorkBegins("", error);
      ByteTaken(b);
      parseError, refused, handling := error, true, true;
    }

    /** The request goes to its handler; stop when the parser is to pause after it. */
    method WorkOn(message: string, ghost b: char) returns (stop: bool)
      requires Valid() && dispatching && !handling && Open() && !hold && seen + [b] <= env.received
      requires message == partial + [b] && framing.judge(message) == Complete
      modifies `closed, `awaiting, `answeredInDispatch, `closeAfterSend, `throttled, `mask, `writeBuf, `writePos,
               `lost, `strayed,
               `fileOpen, `fileData, `fileRemaining, `deferred, `answers, `graceful, `stopReading, `handling, `hold,
               `partial, `requests, `seen, env
      ensures Valid() && !hold && !handling && env.received == old(env.received) && env.arrivals == old(env.arrivals)
      ensures Grown(old(Now()), Now())
      ensures seen == old(seen) + [b] && (stop <==> !Open())
      ensures NextAction(old(env.actions)).Defer? ==> awaiting && Unwritten() && requests == old(requests) + [message]
    {
      hide Connection.Valid, Fits, Ends, Grown, Connection.Answered, Connection.AsGiven;
      BeginRequest(message, b);
      ghost var mid := Now();
      RequestGrown(old(Now()), message);
      Dispatch(message);
      GrownThen(old(Now()), mid, Now());
      stop := hold;
      SetHold(false);
    }

    /** One byte into the parser; stop when it paused after a request, or refused the byte. */
    method FeedByte(b: char) returns (stop: bool, ok: bool)
      requires Valid() && dispatching && !handling && Open() && !hold && seen + [b] <= env.received
      modifies `closed, `awaiting, `answeredInDispatch, `closeAfterSend, `throttled, `mask, `writeBuf, `writePos,
               `lost, `strayed,
               `fileOpen, `fileData, `fileRemaining, `deferred, `answers, `graceful, `stopReading, `handling, `hold,
               `partial, `requests, `seen, `parseError, `refused, env
      ensures Valid() && !hold && env.received == old(env.received) && env.arrivals == old(env.arrivals)
      ensures Grown(old(Now()), Now())
      ensures ok ==> !handling && seen == old(seen) + [b] && (stop <==> !Open())
      ensures !ok ==> stop && handling && refused && Due(|answers|) && Open() && |env.calls| == |requests|
      ensures framing.judge(old(partial) + [b]) == Complete && NextAction(old(env.actions)).Defer? ==>
        awaiting && Unwritten() && requests == old(requests) + [old(partial) + [b]]
    {
      hide Connection.Valid, Grown, Connection.Unwritten;
      var message := partial + [b];
      match framing.judge(message)
      case More =>
        TakeByte(b);
        return false, true;
      case Complete =>
        stop := WorkOn(message, b);
        return stop, true;
      case Malformed(error) =>
        Refuse(b, error);
        return true, false;
    }

    /** Feeds the parser; consumed tells how much of data it took. */
    method Feed(data: string) returns (ok: bool)
      requires Valid() && dispatching && !handling && Open() && !hold && env.received == seen + data
      modifies `closed, `awaiting, `answeredInDispatch, `closeAfterSend, `throttled, `mask, `writeBuf, `writePos,
               `lost, `strayed,
               `fileOpen, `fileData, `fileRemaining, `deferred, `answers, `graceful, `stopReading, `handling, `hold,
               `partial, `requests, `seen, `parseError, `refused, `consumed, env
      ensures Valid() && !hold && env.received == old(env.received) && env.arrivals == old(env.arrivals)
      ensures Grown(old(Now()), Now())
      ensures ok ==>
        !handling && consumed <= |data| && env.received == seen + data[consumed..] && (data != "" ==> consumed > 0)
      ensures ok && consumed < |data| ==> !Open()
      ensures !ok ==> handling && refused && Due(|answers|) && Open() && |env.calls| == |requests|
    {
      hide Connection.Valid, Fits, Ends, Grown;
      SetConsumed(0);
      var i := 0;
      StillGrown(Now());
      while i < |data|
        invariant 0 <= i <= |data| && env.received == seen + data[i..]
        invariant Valid() && !handling && Open() && !hold
        invariant env.received == old(env.received) && env.arrivals == old(env.arrivals) && Grown(old(Now()), Now())
      {
        ghost var mid := Now();
        SplitFirst(seen, data, i);
        var stop, fine := FeedByte(data[i]);
        GrownThen(old(Now()), mid, Now());
        if !fine { return false; }
        i := i + 1;
        if stop {
          SetConsumed(i);
          return true;
        }
      }
      SetConsumed(|data|);
      return true;
    }

    /** The result is false for a connection that must go. A malformed request is answered with the 400. */
    method FeedInput(data: string) returns (ok: bool)
      requires Valid() && dispatching && !handling && Open() && !hold && pendingIn == ""
      requires env.received == seen + data && |data| <= READ_SIZE
      modifies `closed, `awaiting, `answeredInDispatch, `closeAfterSend, `throttled, `mask, `writeBuf, `writePos,
               `lost, `strayed,
               `fileOpen, `fileData, `fileRemaining, `deferred, `answers, `graceful, `stopReading, `handling, `hold,
               `partial, `requests, `seen, `parseError, `refused, `consumed, `pendingIn, env
      ensures Grown(old(Now()), Now())
      ensures Valid() && !handling && !hold && env.received == old(env.received) && env.arrivals == old(env.arrivals)
      ensures if ok then !closed && !stopReading ==> env.received == seen + pendingIn else closed
      ensures ok && Open() ==> pendingIn == ""
      ensures refused ==> |answers| == |requests| + 1 && answers[|requests|] == Reply(BadRequest(parseError))
    {
      hide Connection.Valid, Fits, Grown, BadRequest;
      var rest := data;
      StillGrown(Now());
      NotRefused();
      while rest != "" && !closed
        invariant Valid() && !handling && !hold && pendingIn == "" && |rest| <= READ_SIZE
        invariant Grown(old(Now()), Now())
        invariant env.received == old(env.received) && env.arrivals == old(env.arrivals) && env.received == seen + rest
        invariant rest != "" ==> Open()
        decreases |rest|
      {
        ghost var mid := Now();
        var fine := Feed(rest);
        GrownThen(old(Now()), mid, Now());
        if !fine {
          if closed || Owed() {
            assert false;            // the parser has paused behind an owed answer
          }
          ghost var late := Now();
          AnswerBadRequest();
          GrownThen(old(Now()), late, Now());
          return !closed;
        }
        rest := rest[consumed..];
        if rest != "" {
          if !stopReading { Hold(rest); }
          RefusedAnswered();
          return true;
        }
      }
      RefusedAnswered();
      return true;
    }

    lemma NotRefused()
      requires Valid() && !handling && Open()
      ensures !refused
    {
      Unworked();
    }

    /** A malformed request that is not at work has its 400. */
    lemma RefusedAnswered()
      requires Valid() && !handling
      ensures refused ==> |answers| == |requests| + 1 && answers[|requests|] == Reply(BadRequest(parseError))
    {
      hide WireInv, MemoryInv, LastInv, EndInv, DrainInv, IntakeInv, Unsent, BadRequest, Fits;
    }

    method Hold(rest: string)
      requires Valid() && dispatching && |rest| <= READ_SIZE
      modifies `pendingIn
      ensures Valid() && pendingIn == rest
    {
      hide WireInv, MemoryInv, PipelineInv, InputInv, Unsent;
      pendingIn := rest;
    }

    /** The 400 is the next answer, and the last. */
    method AnswerBadRequest()
      requires Valid() && handling && refused && Due(|answers|) && !closed && |env.calls| == |requests|
      modifies `closed, `awaiting, `answeredInDispatch, `closeAfterSend, `throttled, `mask, `writeBuf, `writePos,
               `lost, `deferred, `answers,
               `graceful, `stopReading, `handling, env`transfers, env`sent, env`stalled, env`blocked, env`registered,
               env`arrivals,
               env`received, env`gone
      ensures Valid() && !handling && env.received == old(env.received) && env.arrivals == old(env.arrivals)
      ensures Grown(old(Now()), Now())
      ensures answers == old(answers) + [Reply(BadRequest(parseError))] && |answers| == |requests| + 1 && stopReading
      ensures closeAfterSend
    {
      hide WireInv, MemoryInv, PipelineInv, IntakeInv, Unsent, Connection.MaskOk, Grown;
      hide BadRequest, SaysClose, Connection.Proper;
      ProperRefusal();
      SendResponse(BadRequest(parseError), |answers|);
      EndRequest(false, true);
    }

    lemma ProperRefusal()
      requires refused && |env.calls| == |requests| && |answers| == |requests|
      ensures BadRequest(parseError) == Marked(BadRequest(parseError), AsLast())
      ensures Proper(Reply(BadRequest(parseError)))
    {
      BadRequestCloses(parseError);
      hide BadRequest, SaysClose;
    }

    // ── One event ──

    method ReadSome() returns (r: ReadOutcome)
      requires Valid() && dispatching && !handling && Open() && pendingIn == "" && env.received == seen
      modifies env`arrivals, env`received, env`gone
      ensures Valid() && Grown(old(Now()), Now()) && (r.Eof? ==> env.gone > 0)
      ensures r == ReadNext(old(env.arrivals), READ_SIZE) && env.arrivals == ReadRest(old(env.arrivals), READ_SIZE)
      ensures env.received == seen + ReadBytes(r)
    {
      hide WireInv, MemoryInv, PipelineInv, IntakeInv, Unsent;
      MoreRead();
      r := env.Read(READ_SIZE);
    }

    lemma MoreRead()
      requires Valid() && dispatching
      ensures forall received :: env.received <= received ==>
        IntakeInv(framing.judge, requests, partial, seen, received, refused, pendingIn, closed, stopReading,
                  dispatching)
    {
      hide WireInv, MemoryInv, PipelineInv, InputInv, Unsent;
      forall received | env.received <= received
        ensures InputInv(framing.judge, requests, partial, seen, received, refused)
      {
        InputRead(framing.judge, requests, partial, seen, env.received, refused, received);
      }
    }

    /** All that could be read from these arrivals was read, and nothing of it is held. */
    ghost predicate HasRead(received: string, arrivals: seq<ReadOutcome>)
      reads `pendingIn, env`received, env`arrivals
    {
      pendingIn == "" && env.received == received + Waiting(arrivals) && env.arrivals == Beyond(arrivals)
    }

    /** Held input first, then what the socket has, as long as nothing stops the next request. */
    method ReadAndFeed() returns (ok: bool)
      requires Valid() && dispatching && !handling && !hold && Open() && env.received == seen + pendingIn
      modifies `closed, `awaiting, `answeredInDispatch, `closeAfterSend, `throttled, `mask, `writeBuf, `writePos,
               `lost, `strayed,
               `fileOpen, `fileData, `fileRemaining, `deferred, `answers, `graceful, `stopReading, `handling, `hold,
               `partial, `requests, `seen, `parseError, `refused, `consumed, `pendingIn, env
      ensures Valid() && !handling && !hold && Grown(old(Now()), Now())
      ensures if ok then !closed && !stopReading ==> env.received == seen + pendingIn else closed
      ensures ok && Open() ==> HasRead(old(env.received), old(env.arrivals))
    {
      hide Connection.Valid, Fits, Grown, BadRequest, Waiting, Beyond, Reads, Bytes, ReadNext, ReadRest;
      Read();
      StillGrown(Now());
      if pendingIn != "" {
        var input := pendingIn;
        Hold("");
        ok := FeedInput(input);
        if !ok { return false; }
      }
      while Open() && pendingIn == ""
        invariant Valid() && !handling && !hold
        invariant Grown(old(Now()), Now())
        invariant !closed && !stopReading ==> env.received == seen + pendingIn
        invariant Open() ==> pendingIn == ""
        invariant env.received + Waiting(env.arrivals) == old(env.received) + Waiting(old(env.arrivals))
        invariant Beyond(env.arrivals) == Beyond(old(env.arrivals))
        decreases Reads(env.arrivals)
      {
        Strings3(seen, "", "");
        Strings3(env.received, ReadBytes(ReadNext(env.arrivals, READ_SIZE)),
                 Waiting(ReadRest(env.arrivals, READ_SIZE)));
        ghost var mid := Now();
        ReadTakes(env.arrivals, READ_SIZE);
        var r := ReadSome();
        ghost var late := Now();
        GrownThen(old(Now()), mid, late);
        match r
        case Eof =>
          Abandon();
          return false;
        case Again =>
          break;
        case Data(bytes) =>
          ok := FeedInput(bytes);
          GrownThen(old(Now()), late, Now());
          if !ok { return false; }
      }
      return true;
    }

    /** With nothing held, the requests are those of all that was read. */
    lemma AllTaken()
      requires Valid() && !dispatching
      ensures !closed && !stopReading && pendingIn == "" ==> requests == Parse(framing.judge, env.received).requests
    {
      hide WireInv, MemoryInv, PipelineInv, Unsent, Parse;
      Strings3(seen, "", "");
    }

    /** Outside a dispatch all that was read is taken or held, if it still matters; little is held. */
    lemma Read()
      requires Valid()
      ensures |pendingIn| <= READ_SIZE && (!closed && !stopReading && !dispatching ==> env.received == seen + pendingIn)
    {
      hide WireInv, MemoryInv, PipelineInv, IntakeInv, Unsent;
      Facts(Unsent(writeBuf, writePos, fileOpen, fileData, fileRemaining), false, env.stalled);
    }

    method SetDispatching(on: bool)
      requires Valid() && !handling && (on || closed || stopReading || env.received == seen + pendingIn)
      modifies `dispatching
      ensures Valid() && dispatching == on
    {
      hide WireInv, MemoryInv, PipelineInv, InputInv, Unsent;
      dispatching := on;
    }

    /** No request is taken up for now. */
    predicate NotReading()
      reads `awaiting, `fileOpen, `stopReading, `throttled
    {
      awaiting || fileOpen || stopReading || throttled
    }

    /**
     * Reads, dispatches, and settles; false when the connection is closed. Woken though it does not read, it
     * is given up.
     */
    method OnReadable() returns (ok: bool)
      requires Valid() && !dispatching && !handling && !hold
      modifies `closed, `awaiting, `answeredInDispatch, `closeAfterSend, `throttled, `mask, `writeBuf, `writePos,
               `lost, `strayed,
               `fileOpen, `fileData, `fileRemaining, `deferred, `answers, `graceful, `stopReading, `handling, `hold,
               `partial, `requests, `seen, `parseError, `refused, `consumed, `pendingIn, `dispatching, `aborts, env
      ensures Valid() && !dispatching && !handling && !hold && Grown(old(Now()), Now())
      ensures (ok <==> !closed) && (!closed ==> MaskOk() && EndPending())
      ensures aborts == old(aborts) + if old(!closed && NotReading()) then 1 else 0
      ensures old(closed || NotReading()) ==> closed && Now() == old(Now()) && unchanged(env)
      ensures !closed && !NotReading() ==> HasRead(old(env.received), old(env.arrivals))
    {
      hide Connection.Keeps, Connection.MaskOk, Connection.HasRead, Grown;
      StillGrown(Now());
      if closed { return false; }
      if Owed() || stopReading || throttled {
        GiveUpWoken();
        return false;
      }
      Read();
      SetDispatching(true);
      var fed := ReadAndFeed();
      SetDispatching(false);
      if closed { return false; }
      ghost var mid := Now();
      ok := Settle();
      GrownThen(old(Now()), mid, Now());
    }

    /** Called though it does not read: the peer is taken to have left. */
    method GiveUpWoken()
      requires Valid()
      modifies `closed, `aborts
      ensures Valid() && closed && aborts == old(aborts) + 1
    {
      hide WireInv, MemoryInv, PipelineInv, IntakeInv, Unsent;
      aborts := aborts + 1;
      Abandon();
    }

    /** At the end of a dispatch: close after the last answer, or set the mask. */
    method Settle() returns (ok: bool)
      requires Valid() && !dispatching && !handling && !closed
      modifies `closed, `closeAfterSend, `graceful, `mask, env`registered, env`arrivals, env`received, env`gone
      ensures Valid() && (ok <==> !closed) && (!closed ==> MaskOk() && EndPending()) && Grown(old(Now()), Now())
      ensures old(AllSaid()) ==> closed && graceful
      ensures !closed ==> closeAfterSend == old(closeAfterSend)
      ensures closed ==> old(AllSaid()) || !Said(old(env.registered), true)
      ensures old(env.registered) == [] ==> env.registered == []
      ensures !closed ==> env.received == old(env.received) && env.arrivals == old(env.arrivals)
    {
      hide WireInv, MemoryInv, PipelineInv, IntakeInv, Unsent, Connection.MaskOk, Wanted;
      if closeAfterSend && !Owed() && !HasPendingWrites() {
        Finish();
        return false;
      }
      UpdateInterest();
      ok := !closed;
    }

    /** The last answer is going out, and nothing but its tail is left to do. */
    predicate TailOfLast()
      reads this
    {
      !closed && stopReading && !Owed() && !throttled && writePos < |writeBuf|
    }

    lemma Stopped()
      requires Valid() && !closed && !handling
      ensures (stopReading <==> closeAfterSend) && (throttled ==> writePos < |writeBuf|)
    {
      hide WireInv, MemoryInv, PipelineInv, IntakeInv, Unsent;
      Facts(Unsent(writeBuf, writePos, fileOpen, fileData, fileRemaining), false, env.stalled);
    }

    /** Woken to read, it does not read only while the tail of its last answer is going out. */
    lemma WokenTail()
      requires Resting()
      ensures mask.input ==> (!closed && NotReading() <==> TailOfLast())
    {
      hide Connection.Valid;
      if !closed { Stopped(); }
    }

    /** It writes first. */
    method OnOutput()
      requires Resting()
      modifies `closed, `closeAfterSend, `mask, `graceful, `throttled, `writeBuf, `writePos, `fileOpen, `fileRemaining,
               `lost, `strayed,
               env`transfers, env`sent, env`stalled, env`blocked, env`registered, env`arrivals, env`received, env`gone
      ensures Resting() && Grown(old(Now()), Now()) && (old(closed) ==> closed)
      ensures !closed ==> env.received == old(env.received) && env.arrivals == old(env.arrivals)
      ensures !closed && NotReading() ==> old(NotReading())
      ensures old(TailOfLast()) ==>
        (closed <==> old(TailCourse()).end != -1) && (!closed ==> NotReading())
      ensures old(!closed && TailCourse().end == -2) ==> closed && Drained()
    {
      hide Connection.Valid, Connection.Drained, Grown, CourseOf, Outcome;
      Bounds();
      if !closed { Stopped(); }
      var more := OnWritable();
      if !closed { Stopped(); }
    }

    /** What follows when nothing, or not all, could be written: it reads when it is to, or has input to go on with. */
    method Proceed(e: Events) returns (keep: bool)
      requires Resting() && !closed
      modifies `closed, `awaiting, `answeredInDispatch, `closeAfterSend, `throttled, `mask, `writeBuf, `writePos,
               `lost, `strayed,
               `fileOpen, `fileData, `fileRemaining, `deferred, `answers, `graceful, `stopReading, `handling, `hold,
               `partial, `requests, `seen, `parseError, `refused, `consumed, `pendingIn, `dispatching, `aborts, env
      ensures Resting() && (keep <==> !closed) && Grown(old(Now()), Now())
      ensures aborts == old(aborts) + if old(NotReading()) && Signs(e) then 1 else 0
      ensures aborts > old(aborts) ==> closed && Now() == old(Now()) && unchanged(env)
      ensures !closed && !NotReading() ==> pendingIn == "" && requests == Parse(framing.judge, env.received).requests
      ensures !closed && !NotReading() && (old(pendingIn) != "" || Signs(e)) ==>
        HasRead(old(env.received), old(env.arrivals))
    {
      hide Connection.Valid, Parse, Grown;
      StillGrown(Now());
      AllTaken();
      if !Signs(e) && !Resumable() { return true; }
      keep := OnReadable();
      AllTaken();
    }

    /**
     * What one epoll event does; false when the descriptor leaves the loop. With no sign that the peer left it is
     * given up exactly when it is woken to read after stop_keep_alive, while the tail of its last answer is going out.
     */
    method OnEvent(e: Events) returns (keep: bool)
      requires Resting()
      modifies `closed, `awaiting, `answeredInDispatch, `closeAfterSend, `throttled, `mask, `writeBuf, `writePos,
               `lost, `strayed,
               `fileOpen, `fileData, `fileRemaining, `deferred, `answers, `graceful, `stopReading, `handling, `hold,
               `partial, `requests, `seen, `parseError, `refused, `consumed, `pendingIn, `dispatching, `aborts, env
      ensures Resting() && (keep <==> !closed) && Grown(old(Now()), Now())
      ensures old(aborts) <= aborts <= old(aborts) + 1
      ensures (e.input ==> old(mask.input)) && !e.peer && !e.hangup && !e.error ==>
        (aborts > old(aborts) <==> e.input && old(TailOfLast()) && (e.output ==> old(TailCourse()).end == -1))
      ensures !e.output ==>
        (aborts > old(aborts) <==> old(!closed && NotReading()) && Signs(e))
      ensures aborts > old(aborts) ==>
        closed && requests == old(requests) && answers == old(answers) && env.calls == old(env.calls)
      ensures aborts > old(aborts) && !e.output ==> unchanged(env)
      ensures e.output && old(!closed && TailCourse().end == -2) ==>
        closed && Drained() && Now().answers == old(answers)
      ensures aborts > old(aborts) ==> old(NotReading())
      ensures !closed && !NotReading() ==> pendingIn == "" && requests == Parse(framing.judge, env.received).requests
      ensures !closed && !NotReading() && (old(pendingIn) != "" || Signs(e)) ==>
        HasRead(old(env.received), old(env.arrivals))
    {
      hide Connection.Resting, Connection.Drained, Connection.HasRead, Connection.NotReading, Connection.TailOfLast,
        Connection.TailCourse, Parse, Grown;
      StillGrown(Now());
      WokenTail();
      if e.output { OnOutput(); }
      if closed { return false; }
      ghost var mid := Now();
      keep := Proceed(e);
      GrownThen(old(Now()), mid, Now());
    }

    /** Nothing is owed or unsent, and no part of a request was read or waits in the socket. */
    predicate Quiet()
      reads this, env
    {
      !Owed() && !HasPendingWrites() && pendingIn == "" && partial == "" && !Said(env.waiting, false)
    }

    method Peek() returns (some: bool)
      requires Valid()
      modifies env`waiting
      ensures Valid() && some == Said(old(env.waiting), false)
    {
      hide WireInv, MemoryInv, PipelineInv, IntakeInv, Unsent;
      some := env.Peek();
    }

    /** True when this call, or an earlier one, closed the connection. */
    method StopKeepAlive() returns (now: bool)
      requires Resting()
      modifies `closed, `draining, `closeAfterSend, `stopReading, `drainMark, `graceful, env`waiting, env`arrivals,
               env`received, env`gone
      ensures Resting() && (now <==> closed) && Grown(old(Now()), Now())
      ensures !old(closed) ==> stopReading == old(stopReading || Owed() || HasPendingWrites())
      ensures if old(closed) then draining == old(draining) && drainMark == old(drainMark)
              else draining && (closed <==> old(Quiet())) && drainMark == if old(draining) then old(drainMark)
                else |answers|
    {
      hide Connection.Valid;
      StillGrown(Now());
      if closed { return true; }
      BeginDrain(Owed() || HasPendingWrites());
      if Owed() || HasPendingWrites() { return false; }
      if pendingIn != "" || partial != "" { return false; }
      var some := Peek();
      if some { return false; }
      Finish();
      return true;
    }

    /** From here each answer is the last; with one at work or going out, it is that one. */
    method BeginDrain(atWork: bool)
      requires Valid() && !closed && !handling && (awaiting ==> atWork)
      modifies `draining, `closeAfterSend, `stopReading, `drainMark
      ensures Valid() && draining && (atWork ==> closeAfterSend && stopReading)
      ensures !atWork ==> closeAfterSend == old(closeAfterSend) && stopReading == old(stopReading)
      ensures drainMark == if old(draining) then old(drainMark) else |answers|
    {
      hide WireInv, MemoryInv, PipelineInv, IntakeInv, Unsent, Connection.Keeps, Environment.Promised;
      ghost var mark := if draining then drainMark else |answers|;
      DrainSet(atWork, mark);
      draining, drainMark := true, mark;
      if atWork {
        closeAfterSend, stopReading := true, true;
      }
      Assembled();
    }

    lemma DrainSet(atWork: bool, mark: nat)
      requires Valid() && !closed && !handling && (awaiting ==> atWork)
      requires mark == if draining then drainMark else |answers|
      ensures Fields(false) && MemoryInv(answers, BufferedBytes(), throttled, fileOpen, awaiting, closed)
      ensures WireInv(answers, Met(|requests|, refused), env.sent,
                      Unsent(writeBuf, writePos, fileOpen, fileData, fileRemaining), closed, graceful, lost, strayed,
                      env.stalled)
      ensures atWork ==>
        && PipelineInv(framing, requests, answers, env.calls, late, refused, parseError, awaiting, handling, true,
                       true, closed, fileOpen, true, mark, deferred)
        && IntakeInv(framing.judge, requests, partial, seen, env.received, refused, pendingIn, closed, true,
                     dispatching)
      ensures !atWork ==>
        && PipelineInv(framing, requests, answers, env.calls, late, refused, parseError, awaiting, handling,
                       stopReading, closeAfterSend, closed, fileOpen, true, mark, deferred)
        && IntakeInv(framing.judge, requests, partial, seen, env.received, refused, pendingIn, closed, stopReading,
                     dispatching)
    {
      Facts(Unsent(writeBuf, writePos, fileOpen, fileData, fileRemaining), false, env.stalled);
      hide WireInv, MemoryInv, TurnInv, LastInv, EndInv, DrainInv, WorkInv, InputInv, Unsent;
      var met, ending := Met(|requests|, refused), stopReading || handling || closed;
      LastClosing(framing.keepAlive, requests, answers, refused, ending, closed || closeAfterSend, ending || atWork,
                  closed || closeAfterSend || atWork);
      EndDrains(framing, requests, refused, draining, stopReading, closeAfterSend, atWork);
      DrainBegins(draining, answers, met, drainMark, ending, ending || atWork);
      WorkEnding(requests, answers, env.calls, late, met, refused, parseError, ending, handling, awaiting,
                 ending || atWork);
    }

    // ── What it comes to ──

    /**
     * In an open state of rest, sent, buffered and in the file are the answers, in request order, exactly as
     * long as no transfer moved nothing. Closed, what was sent is a part of them from the start, unless a file
     * went out behind a dropped tail; a peer that reads to a graceful end has them all.
     */
    lemma KeptOrder()
      requires Resting()
      ensures !closed ==>
        var u := Unsent(writeBuf, writePos, fileOpen, fileData, fileRemaining);
        && (env.sent + u == Stream(answers) <==> !env.stalled)
        && |env.sent| + |u| + lost == |Stream(answers)| && (lost > 0 <==> env.stalled)
      ensures lost == 0 && !strayed ==> env.sent <= Stream(answers)
      ensures graceful ==> |answers| == Met(|requests|, refused) && (lost == 0 ==> env.sent == Stream(answers))
    {
      hide MemoryInv, PipelineInv, IntakeInv, Unsent, Stream;
    }

    /**
     * The tail is bounded by the high mark and one answer; over the mark requests wait, but for a head that
     * is itself over it.
     */
    lemma KeptMemory()
      requires Resting()
      ensures answers != [] ==> BufferedBytes() <= HIGH_WATER + |Buffered(answers[|answers|-1])|
      ensures !closed && BufferedBytes() > HIGH_WATER ==>
        throttled || (fileOpen && answers != [] && |Buffered(answers[|answers|-1])| > HIGH_WATER)
      ensures !closed && throttled ==> BufferedBytes() > LOW_WATER
      ensures |pendingIn| <= READ_SIZE
    {
      hide WireInv, PipelineInv, InputInv, Unsent, Buffered;
    }

    /**
     * One request in work; each went to its handler once, and each answer is the one its handler gave, the
     * last perhaps marked.
     */
    lemma KeptWork()
      requires Resting()
      ensures |answers| <= Met(|requests|, refused) <= |answers| + 1
      ensures !closed ==> (awaiting <==> Met(|requests|, refused) == |answers| + 1)
      ensures !closed ==> deferred == (if awaiting then {|requests| - 1} else {})
      ensures |env.calls| == |requests| && forall i :: 0 <= i < |requests| ==> env.calls[i].0 == requests[i]
      ensures forall i :: 0 <= i < |requests| && i < |answers| ==>
        Fits(ActionOf(env.calls, late, i), answers[i], (closed || stopReading) && i == |answers| - 1)
      ensures refused ==> |answers| == |requests| + 1 && answers[|requests|] == Reply(BadRequest(parseError))
    {
      hide WireInv, MemoryInv, LastInv, EndInv, DrainInv, IntakeInv, Unsent, IsAnswer, BadRequest;
    }

    /** The requests are the parse of what was read, whatever the chunks; nothing is skipped. */
    lemma KeptInput()
      requires Resting()
      ensures env.received + Bytes(env.arrivals) == env.whole
      ensures requests <= Parse(framing.judge, env.received).requests
      ensures !closed && !stopReading ==>
        env.received == seen + pendingIn && requests == Parse(framing.judge, seen).requests
    {
      hide WireInv, MemoryInv, PipelineInv, Unsent, Parse;
      assert env.received == seen + env.received[|seen|..];
      ParseExtends(framing.judge, seen, env.received[|seen|..]);
    }

    /**
     * An open connection is never deaf: it is woken to write, to go on with held input, to read, and to hear
     * that the peer left.
     */
    lemma KeptHearing()
      requires Resting() && !closed
      ensures HasPendingWrites() || Resumable() ==> mask.output
      ensures !Owed() && !HasPendingWrites() ==> mask.input && mask.peer
      ensures Owed() ==> mask.peer
      ensures Owed() || throttled ==> !mask.input
      ensures mask.input && stopReading ==> draining && writePos < |writeBuf|
      ensures stopReading ==> Owed() || HasPendingWrites()
    {
      hide WireInv, MemoryInv, PipelineInv, IntakeInv, Unsent, Ends;
      Facts(Unsent(writeBuf, writePos, fileOpen, fileData, fileRemaining), false, env.stalled);
    }

    /**
     * Reading stops for a reason; the last request's answer says that it is the last, and after
     * stop_keep_alive one more at most is started.
     */
    lemma KeptEnd()
      requires Resting()
      ensures !closed ==> (stopReading <==> closeAfterSend) && (stopReading ==>
                                                                  draining || refused || Ends(framing, requests))
      ensures forall i :: 0 <= i < |requests| - 1 ==> framing.keepAlive(requests[i])
      ensures forall i :: 0 <= i < |requests| && i < |answers| && !framing.keepAlive(requests[i]) ==> Closes(answers[i])
      ensures refused && |answers| == |requests| + 1 ==> Closes(answers[|answers|-1])
      ensures draining ==> drainMark <= |answers| <= drainMark + 1 && forall i :: drainMark <= i < |answers| ==>
        Closes(answers[i])
    {
      hide WireInv, MemoryInv, WorkInv, IntakeInv, Unsent, Closes, Ends;
    }

    /**
     * It closes only for a reason, or when the client, or the loop, has let it go; and something is held back only
     * when the socket once blocked.
     */
    lemma KeptReasons()
      requires Resting()
      ensures closed ==> graceful || LetGo()
      ensures graceful ==> closed && (draining || refused || Ends(framing, requests))
      ensures !closed && HasPendingWrites() ==> env.blocked > 0
    {
      hide WireInv, MemoryInv, PipelineInv, IntakeInv, Unsent, Ends;
    }

    /**
     * With nothing in the way and handlers that answer at once, whatever was read is answered: the connection is open
     * and reading, and all answers, each as given, are with the peer.
     */
    lemma Undisturbed()
      requires Resting() && env.eager && !draining && aborts == 0 && Prompt(framing, env.whole, env.script)
      ensures !closed && !NotReading() && !HasPendingWrites()
      ensures |answers| == |requests| <= |env.script| && env.sent == Stream(answers)
      ensures forall i :: 0 <= i < |requests| ==> IsAnswer(env.script[i], answers[i], false)
    {
      Unreasoned();
      KeptReasons();
      KeptOrder();
      KeptWork();
      KeptMemory();
      ByScript(env.calls, env.actions, env.script);
      hide Connection.Valid, Unsent, Stream, Parse, Prompt, Ends, IsAnswer, Done, BadRequest;
      assert !awaiting;
    }

    lemma Unreasoned()
      requires Valid() && !draining && Prompt(framing, env.whole, env.script)
      ensures !Reasoned() && |requests| <= |env.script|
      ensures forall i :: 0 <= i < |requests| ==> !env.script[i].Defer?
      ensures !closed ==> !stopReading
    {
      hide WireInv, MemoryInv, PipelineInv, Unsent, Parse, Ends, Prompt, InputInv, Bytes;
      PromptRequests(framing, requests, partial, seen, env.received, refused, env.whole, env.script);
      Facts(Unsent(writeBuf, writePos, fileOpen, fileData, fileRemaining), false, env.stalled);
    }

    lemma StopsForReason()
      requires Valid() && !closed && awaiting
      ensures stopReading ==> draining || Ends(framing, requests)
    {
      Facts(Unsent(writeBuf, writePos, fileOpen, fileData, fileRemaining), false, env.stalled);
      hide WireInv, MemoryInv, TurnInv, LastInv, DrainInv, WorkInv, IntakeInv, Unsent, Ends;
    }

    /** The dispatched requests depend on the bytes alone: not on how they were cut or when answers went. */
    lemma SameInputSameRequests(other: Connection)
      requires Resting() && !closed && !stopReading && pendingIn == ""
      requires other.Resting() && !other.closed && !other.stopReading && other.pendingIn == ""
      requires framing.judge == other.framing.judge && env.received == other.env.received
      ensures requests == other.requests && partial == other.partial
    {
      hide WireInv, MemoryInv, PipelineInv, Unsent, Parse;
      Strings3(seen, "", "");
      Strings3(other.seen, "", "");
    }

    /** A deferred answer is the one that comes next, and may be sent, whatever it is. */
    lemma DeferredDue()
      requires Resting() && awaiting && !closed
      ensures Due(|answers|) && !refused && |answers| < |env.calls| && env.calls[|answers|].1.Defer?
    {
      hide WireInv, MemoryInv, PipelineInv, IntakeInv, Unsent;
      Facts(Unsent(writeBuf, writePos, fileOpen, fileData, fileRemaining), false, env.stalled);
    }

    /** The module's answer to the request that is owed one becomes known. */
    ghost method Give(action: Action)
      requires Valid() && awaiting
      modifies `late
      ensures Valid() && late == old(late)[|answers| := action]
    {
      hide WireInv, MemoryInv, PipelineInv, IntakeInv, Unsent;
      Given(action);
      late := late[|answers| := action];
    }

    lemma Given(action: Action)
      requires Valid()
      ensures PipelineInv(framing, requests, answers, env.calls, late[|answers| := action], refused, parseError,
                          awaiting, handling, stopReading, closeAfterSend, closed, fileOpen, draining, drainMark,
                          deferred)
    {
      hide WireInv, MemoryInv, TurnInv, LastInv, EndInv, DrainInv, WorkInv, IntakeInv, Unsent;
      WorkGiven(requests, answers, env.calls, late, Met(|requests|, refused), refused, parseError,
                stopReading || handling || closed, handling, awaiting, action);
    }

    /** An answer still owed, when it is to be the last, is owed on a connection that has stopped reading. */
    lemma LastStops()
      requires Valid() && !closed && awaiting
      ensures AsLast() ==> stopReading
    {
      Facts(Unsent(writeBuf, writePos, fileOpen, fileData, fileRemaining), false, env.stalled);
      hide WireInv, MemoryInv, LastInv, WorkInv, IntakeInv, Unsent, Ends;
    }

    lemma GoneCourses(head: string, content: string)
      requires head != "" && content != "" && Tail() == head && FileTail() == content
      requires env.transfers == [-2, |content|]
      ensures TailCourse() == Course(-2, 0, [|content|]) && FileCourse() == Course(1, |content|, [])
      ensures Tail()[..0] == "" && FileTail()[..|content|] == content
    {
      GoneCourse(|head|, |content|);
    }

    /** What a module gives to a deferred request is its answer. */
    lemma ProperGiven(action: Action, a: Answer)
      requires Resting() && awaiting && !closed && |answers| in late && late[|answers|] == action
      requires Fits(action, a, true) && (!AsLast() ==> Fits(action, a, false)) && (AsLast() ==> Closes(a))
      ensures Due(|answers|) && Proper(a)
    {
      hide Closes, BadRequest, IsAnswer, Connection.Valid;
      DeferredDue();
      LastStops();
    }
  }

  /** Of the whole, all but the rest has been sent, by the transfers made since. */
  ghost predicate Underway(whole: string, start: string, transfers: seq<int>, sent: string, left: seq<int>,
                           rest: string) {
    && |rest| <= |whole| && rest == whole[|whole|-|rest|..] && sent == start + whole[..|whole|-|rest|]
    && CourseOf(transfers, |whole|) == After(|whole| - |rest|, CourseOf(left, |rest|))
  }

  lemma UnderwayStarts(whole: string, start: string, transfers: seq<int>)
    ensures Underway(whole, start, transfers, start, transfers, whole)
  {
    hide CourseOf;
    assert whole[..0] == "" && start + "" == start && whole[0..] == whole;
  }

  lemma UnderwayMoves(whole: string, start: string, transfers: seq<int>, sent: string, left: seq<int>, rest: string)
    requires Underway(whole, start, transfers, sent, left, rest) && rest != ""
    ensures var n, c := Outcome(left, |rest|), CourseOf(transfers, |whole|);
      if n > 0 then Underway(whole, start, transfers, sent + rest[..n], Rest(left), rest[n..])
      else c.end == n && c.left == Rest(left) && sent == start + whole[..c.moved] && rest == whole[c.moved..]
  {
    var n, done := Outcome(left, |rest|), |whole| - |rest|;
    CourseNext(left, |rest|, done);
    hide CourseOf, Outcome;
    if n > 0 {
      assert rest[n..] == whole[done+n..];
      assert whole[..done] + rest[..n] == whole[..done+n];
      Strings3(start, whole[..done], rest[..n]);
    }
  }

  lemma UnderwayEnds(whole: string, start: string, transfers: seq<int>, sent: string, left: seq<int>, rest: string)
    requires Underway(whole, start, transfers, sent, left, rest) && |rest| == 0
    ensures var c := CourseOf(transfers, |whole|);
      c.end == 1 && c.left == left && sent == start + whole[..c.moved] && rest == whole[c.moved..]
  {
  }

  lemma FileCloses(source: FileSource, mime: string, last: bool)
    ensures last ==> Closes(FileAnswer(source, mime, last))
  {
    MarkedCloses(NotFound("file not readable"), last);
    MarkedCloses(NotFound("not a regular file"), last);
    hide NotFound, Marked, SaysClose;
  }

  lemma MarkedFits(r: Response, last: bool)
    ensures Fits(SendNow(r), Reply(Marked(r, last)), true)
    ensures !last ==> Fits(SendNow(r), Reply(Marked(r, last)), false)
  {
    hide SetClose, SaysClose;
  }

  lemma GivenFits(action: Action, a: Answer, last: bool)
    requires IsAnswer(action, a, last)
    ensures Fits(action, a, true) && (!last ==> Fits(action, a, false))
  {
    hide IsAnswer;
  }

  lemma StillGrown(a: Past)
    ensures Grown(a, a)
  {
  }

  lemma CallGrown(a: Past, call: (string, Action))
    ensures Grown(a, a.(calls := a.calls + [call]))
  {
  }

  lemma RequestGrown(a: Past, request: string)
    ensures Grown(a, a.(requests := a.requests + [request]))
  {
  }

  /** Of such an input no byte is refused, and no request ends the connection. */
  lemma PromptRequests(f: Framing, requests: seq<string>, partial: string, seen: string, received: string,
                       refused: bool, input: string, script: seq<Action>)
    requires InputInv(f.judge, requests, partial, seen, received, refused) && received <= input
    requires Prompt(f, input, script)
    ensures !refused && !Ends(f, requests)
    ensures |requests| <= |script| && forall i :: 0 <= i < |requests| ==> !script[i].Defer?
  {
    hide Parse;
    var all := Parse(f.judge, input).requests;
    ParseExtends(f.judge, seen, input[|seen|..]);
    assert seen + input[|seen|..] == input;
    assert requests <= all;
    var refusal := if |seen| < |received| then received[..|seen|+1] else seen;
    ParseExtends(f.judge, refusal, input[|refusal|..]);
    assert refusal + input[|refusal|..] == input;
  }

  /** What handlers did is what the script says. */
  lemma ByScript(calls: seq<(string, Action)>, actions: seq<Action>, script: seq<Action>)
    requires script <= Done(calls) + actions
    ensures forall i :: 0 <= i < |calls| && i < |script| ==> calls[i].1 == script[i]
  {
    forall i | 0 <= i < |calls| && i < |script|
      ensures calls[i].1 == script[i]
    {
      assert (Done(calls) + actions)[i] == Done(calls)[i];
    }
  }

  // ─── Runs ──────────────────────────────────────────────────────────────────

  /** What can happen to a connection between two states of rest. */
  datatype Step =
    | Wake(events: Events)                           // an epoll event
    | Late(resp: Response)                           // a module answers a request it deferred
    | LateFile(source: FileSource, mime: string)     // ... with a file
    | Stop                                           // stop_keep_alive()

  predicate IsLate(step: Step) {
    step.Late? || step.LateFile?
  }

  /** What a module gives to the request it deferred. */
  function Given(step: Step): Action
    requires IsLate(step)
  {
    match step
    case Late(resp) => SendNow(resp)
    case LateFile(source, mime) => SendFileNow(source, mime)
  }

  /** The answer it comes to. */
  function LateAnswer(step: Step, last: bool): Answer
    requires IsLate(step)
  {
    match step
    case Late(resp) => Reply(Marked(resp, last))
    case LateFile(source, mime) => FileAnswer(source, mime, last)
  }

  method TakeStep(c: Connection, step: Step)
    requires c.Resting()
    modifies c, c.env
    ensures c.Resting() && Grown(old(c.Now()), c.Now())
    ensures old(c.draining) ==> c.draining && c.drainMark == old(c.drainMark)
    ensures if IsLate(step) && old(c.awaiting && !c.closed)
            then c.answers == old(c.answers) + [LateAnswer(step, old(c.AsLast()))]
              && c.late == old(c.late)[|old(c.answers)| := Given(step)]
            else c.late == old(c.late) && (!step.Wake? ==> c.answers == old(c.answers))
  {
    hide Connection.Valid, Connection.MaskOk, Connection.Hears, Connection.EndPending, Connection.Proper, Grown;
    StillGrown(c.Now());
    match step
    case Wake(events) =>
      var keep := c.OnEvent(events);
    case Late(resp) =>
      // A module answers only what it deferred and has not answered.
      if c.awaiting && !c.closed { AnswerLate(c, resp); }
    case LateFile(source, mime) =>
      if c.awaiting && !c.closed { AnswerLateFile(c, source, mime); }
    case Stop =>
      var now := c.StopKeepAlive();
  }

  method AnswerLate(c: Connection, resp: Response)
    requires c.Resting() && c.awaiting && !c.closed
    modifies c`closed, c`awaiting, c`answeredInDispatch, c`closeAfterSend, c`throttled, c`mask, c`writeBuf, c`writePos,
             c`lost, c`strayed,
             c`fileOpen, c`fileData, c`fileRemaining, c`deferred, c`answers, c`graceful, c`late, c.env
    ensures c.Resting() && Grown(old(c.Now()), c.Now())
    ensures c.Sent(Reply(Marked(resp, old(c.AsLast())))) && c.late == old(c.late)[|old(c.answers)| := SendNow(resp)]
  {
    hide Connection.Valid, Connection.Proper, Connection.Tuned, Connection.Hears, Connection.EndPending;
    hide Grown, Marked, Closes, SaysClose, Fits, Connection.Started, Connection.Refused, Connection.Outbound;
    ghost var last := Reply(Marked(resp, c.AsLast()));
    c.Give(SendNow(resp));
    MarkedCloses(resp, c.AsLast());
    ReplyWire(Marked(resp, c.AsLast()));
    MarkedFits(resp, c.AsLast());
    c.ProperGiven(SendNow(resp), last);
    c.SendResponse(resp, |c.answers|);
  }

  method AnswerLateFile(c: Connection, source: FileSource, mime: string)
    requires c.Resting() && c.awaiting && !c.closed
    modifies c`closed, c`awaiting, c`answeredInDispatch, c`closeAfterSend, c`throttled, c`mask, c`writeBuf, c`writePos,
             c`lost, c`strayed,
             c`fileOpen, c`fileData, c`fileRemaining, c`deferred, c`answers, c`graceful, c`late, c.env
    ensures c.Resting() && Grown(old(c.Now()), c.Now())
    ensures c.Sent(FileAnswer(source, mime, old(c.AsLast())))
    ensures c.late == old(c.late)[|old(c.answers)| := SendFileNow(source, mime)]
  {
    hide Connection.Valid, Connection.Proper, Connection.Tuned, Connection.Hears, Connection.EndPending;
    hide Grown, FileAnswer, Closes, Fits, Connection.Started, Connection.Refused, Connection.Outbound;
    c.Give(SendFileNow(source, mime));
    FileCloses(source, mime, c.AsLast());
    GivenFits(SendFileNow(source, mime), FileAnswer(source, mime, c.AsLast()), c.AsLast());
    c.ProperGiven(SendFileNow(source, mime), FileAnswer(source, mime, c.AsLast()));
    c.SendFile(source, mime, |c.answers|);
  }

  /**
   * Any run: whatever the steps, the transfers, the chunks read, the handlers and the moments of the
   * deferred answers, the connection comes to rest with all it keeps, and what the lemmas above say of it holds.
   */
  method Serve(framing: Framing, env: Environment, steps: seq<Step>) returns (c: Connection)
    requires env.Unused()
    modifies env
    ensures fresh(c) && c.framing == framing && c.env == env && c.Resting()
    ensures !c.closed ==>
      var u := Unsent(c.writeBuf, c.writePos, c.fileOpen, c.fileData, c.fileRemaining);
      env.sent + u == Stream(c.answers) <==> !env.stalled
    ensures forall i :: 0 <= i < |c.requests| && i < |c.answers| ==>
      i < |env.calls| && env.calls[i].0 == c.requests[i]
        && Fits(ActionOf(env.calls, c.late, i), c.answers[i], (c.closed || c.stopReading) && i == |c.answers| - 1)
    ensures forall k :: k in c.late ==> exists j :: 0 <= j < |steps| && IsLate(steps[j]) && c.late[k] == Given(steps[j])
    ensures c.requests <= Parse(framing.judge, env.received).requests
  {
    hide Connection.Resting, Grown, Fits, Parse, Stream, Unsent, BadRequest, IsAnswer, LateAnswer;
    c := new Connection(framing, env);
    for i := 0 to |steps|
      invariant fresh(c) && c.framing == framing && c.env == env && c.Resting()
      invariant forall k :: k in c.late ==> exists j :: 0 <= j < i && IsLate(steps[j]) && c.late[k] == Given(steps[j])
    {
      TakeStep(c, steps[i]);
    }
    c.KeptOrder();
    c.KeptWork();
    c.KeptInput();
  }

  /** From stop_keep_alive on, whatever comes: one more answer at most, and it says that it is the last. */
  method StopAndServe(c: Connection, steps: seq<Step>)
    requires c.Resting() && !c.closed && !c.draining
    modifies c, c.env
    ensures c.Resting() && old(c.answers) <= c.answers && |c.answers| <= |old(c.answers)| + 1
    ensures |c.answers| > |old(c.answers)| ==> Closes(c.answers[|old(c.answers)|])
  {
    hide Connection.Valid, Connection.MaskOk, Connection.Hears, Connection.EndPending, Grown, Closes;
    ghost var start := c.Now();
    StillGrown(start);
    var now := c.StopKeepAlive();
    for i := 0 to |steps|
      invariant c.Resting() && c.draining && c.drainMark == |old(c.answers)| && Grown(start, c.Now())
    {
      ghost var mid := c.Now();
      TakeStep(c, steps[i]);
      GrownThen(start, mid, c.Now());
    }
    AnswersGrown(start, c.Now());
    c.KeptEnd();
  }

  lemma AnswersGrown(a: Past, b: Past)
    requires Grown(a, b)
    ensures a.answers <= b.answers
  {
  }

  /**
   * With nothing in the way and handlers that answer at once: waking it as long as something is there to be read, in
   * whatever pieces it comes, every request is dispatched, and all answers, each as given, are with the peer.
   */
  method ServeAll(framing: Framing, transfers: seq<int>, arrivals: seq<ReadOutcome>, actions: seq<Action>,
                  registered: seq<bool>, waiting: seq<bool>) returns (c: Connection)
    requires Eager(transfers, arrivals, registered) && Prompt(framing, Bytes(arrivals), actions)
    ensures fresh(c) && fresh(c.env) && c.framing == framing && c.Resting() && !c.closed && !c.NotReading()
    ensures c.env.received == Bytes(arrivals) && c.requests == Parse(framing.judge, Bytes(arrivals)).requests
    ensures |c.answers| == |c.requests| <= |actions|
    ensures forall i :: 0 <= i < |c.requests| ==> IsAnswer(actions[i], c.answers[i], false)
    ensures c.env.sent == Stream(c.answers)
  {
    hide Connection.Valid, Connection.MaskOk, Connection.Hears, Connection.EndPending, Connection.Drained;
    hide Grown, Parse, Prompt, IsAnswer, Stream, CourseOf, Eager, Waiting, Beyond, Done;
    var env := new Environment(transfers, arrivals, actions, registered, waiting);
    c := new Connection(framing, env);
    c.AllTaken();
    c.Undisturbed();
    while env.arrivals != []
      invariant c.env == env && c.framing == framing && c.Resting() && !c.draining && c.aborts == 0
      invariant !c.closed && !c.NotReading() && c.requests == Parse(framing.judge, env.received).requests
      decreases |env.arrivals|
    {
      var keep := c.OnEvent(Events(true, false, false, false, false));
      c.Undisturbed();
    }
    c.Undisturbed();
    c.KeptInput();
  }

  /** ... so that pipelined requests, however they arrive, have their answers, in order and whole. */
  method ServeFrames(framing: Framing, transfers: seq<int>, arrivals: seq<ReadOutcome>, frames: seq<string>,
                     replies: seq<Response>) returns (c: Connection)
    requires Eager(transfers, arrivals, []) && Bytes(arrivals) == Concat(frames) && |replies| == |frames|
    requires forall m :: m in frames ==> Frame(framing.judge, m) && framing.keepAlive(m) && !framing.websocket(m)
    ensures fresh(c) && c.Resting() && !c.closed && c.requests == frames
    ensures |c.answers| == |replies| && forall i :: 0 <= i < |replies| ==> c.answers[i] == Reply(replies[i])
    ensures c.env.sent == Stream(c.answers)
  {
    hide Connection.Resting, Stream, Parse, Eager, Bytes, Concat, Frame;
    var actions := seq(|replies|, i requires 0 <= i < |replies| => Fill(replies[i]));
    ParseConcat(framing.judge, frames);
    c := ServeAll(framing, transfers, arrivals, actions, [], []);
  }

  // ── Runs in which something goes wrong ──

  /** Every byte is a request that keeps the connection alive. */
  const EACH_BYTE := Framing(_ => Complete, _ => true, _ => false)

  /** A new connection that has read the byte of its first request. */
  method ReadRequest(transfers: seq<int>) returns (c: Connection)
    ensures fresh(c) && fresh(c.env) && c.framing == EACH_BYTE && c.Valid() && c.dispatching && !c.handling && !c.hold
    ensures c.Open() && c.Idle() && c.aborts == 0
    ensures !c.draining && c.requests == [] && c.answers == [] && c.partial == "" && c.pendingIn == ""
    ensures c.env.received == c.seen + ['x']
    ensures c.env.sent == "" && c.env.transfers == transfers && c.env.actions == [Defer] && c.env.registered == []
    ensures !c.env.stalled
  {
    hide Connection.Valid, Grown;
    var env := new Environment(transfers, [Data("x")], [Defer], [], []);
    c := new Connection(EACH_BYTE, env);
    c.SetDispatching(true);
    var r := c.ReadSome();
    assert r == Data("x");
  }

  /** ... and whose first request was deferred, before the end of the dispatch. */
  method AskedRequest(transfers: seq<int>) returns (c: Connection)
    ensures fresh(c) && fresh(c.env) && c.Valid() && c.dispatching && !c.handling && !c.hold && c.awaiting && !c.closed
    ensures !c.draining && c.aborts == 0
    ensures !c.HasPendingWrites() && !c.throttled && !c.stopReading && c.lost == 0
    ensures c.env.received == c.seen + c.pendingIn
    ensures c.answers == [] && c.env.sent == "" && c.env.transfers == transfers && c.env.registered == []
    ensures !c.env.stalled
  {
    hide Connection.Valid, Grown;
    c := ReadRequest(transfers);
    var stop, ok := c.FeedByte('x');
    c.StopsForReason();
    assert !Ends(EACH_BYTE, c.requests);
  }

  /** A connection at rest that owes the answer to its first request, with these transfers before it. */
  method DeferredRequest(transfers: seq<int>) returns (c: Connection)
    ensures fresh(c) && fresh(c.env) && c.Resting() && c.awaiting && !c.closed && !c.draining && c.Idle()
    ensures c.aborts == 0
    ensures c.answers == [] && c.env.sent == "" && c.env.transfers == transfers && c.env.registered == []
    ensures !c.env.stalled
  {
    hide Connection.Valid, Grown, Ends;
    c := AskedRequest(transfers);
    c.SetDispatching(false);
    var open := c.Settle();
    c.KeptEnd();
  }

  /**
   * Where bytes are lost and the connection goes on: sendfile reports the end of a file n bytes after its
   * start, the file is closed, and whatever is answered next follows at once.
   */
  method ShortFile(content: string, mime: string, n: nat) returns (c: Connection)
    requires n < |content|
    ensures fresh(c) && c.Resting() && !c.closed && !c.HasPendingWrites() && c.answers == [File(mime, content, false)]
    ensures c.env.sent == FileHead(mime, |content|, false) + content[..n] && c.lost == |content| - n
    ensures c.env.sent + Unsent(c.writeBuf, c.writePos, c.fileOpen, c.fileData, c.fileRemaining) != Stream(c.answers)
  {
    hide Connection.Valid, FileHead, Unsent, Stream, Grown, CourseOf;
    ghost var head := FileHead(mime, |content|, false);
    var size := |FileHead(mime, |content|, false)|;
    c := DeferredRequest([size, n, 0]);
    HeadLonger(mime, |content|);
    ShortCourse(size, |content|, n);
    AnswerLateFile(c, Regular(content), mime);
    c.KeptOrder();
  }

  /**
   * Where a closed connection sends what nobody can place: its tail is dropped at a fatal error, and the file
   * behind it still goes out.
   */
  method GoneFile(content: string, mime: string) returns (c: Connection)
    requires content != "" && content[0] != 'H'
    ensures fresh(c) && c.Resting() && c.closed && !c.env.stalled && c.answers == [File(mime, content, false)]
    ensures c.env.sent == content && !(c.env.sent <= Stream(c.answers))
  {
    hide Connection.Valid, FileHead, Unsent, Grown, CourseOf;
    var size := |FileHead(mime, |content|, false)|;
    c := DeferredRequest([-1, -2, |content|]);
    HeadLonger(mime, |content|);
    GoneCourse(size, |content|);
    AnswerLateFile(c, Regular(content), mime);
    c.GoneCourses(FileHead(mime, |content|, false), content);
    hide Connection.TailCourse, Connection.FileCourse, Connection.Tail, Connection.FileTail;
    var keep := c.OnEvent(Events(false, true, false, false, false));
    HeadStarts(mime, content);
  }

  /**
   * Where memory is over the mark and reading is not throttled: a head longer than the mark, on a socket that
   * takes nothing.
   */
  method LongHead(content: string, mime: string) returns (c: Connection)
    requires |mime| > HIGH_WATER
    ensures fresh(c) && c.Resting() && !c.closed && c.fileOpen && !c.throttled && c.BufferedBytes() > HIGH_WATER
  {
    hide Connection.Valid, FileHead, Unsent, Grown, CourseOf;
    var size := |FileHead(mime, |content|, false)|;
    c := DeferredRequest([-1]);
    HeadLonger(mime, |content|);
    BlockedCourse([-1], size);
    AnswerLateFile(c, Regular(content), mime);
  }

  /** A connection at rest whose only answer, given late, is wholly in the tail. */
  method BlockedAnswer(resp: Response) returns (c: Connection)
    requires |Serialized(resp)| <= HIGH_WATER
    ensures fresh(c) && fresh(c.env) && c.Resting() && c.aborts == 0 && c.answers == [Reply(resp)] && c.env.sent == ""
    ensures !c.closed && !c.stopReading && !c.draining && !c.Owed() && !c.throttled && c.Tail() != "" && c.mask.input
  {
    hide Connection.Valid, Serialized, Stream, Grown, CourseOf, SaysClose;
    c := DeferredRequest([-1]);
    SerializedNonempty(resp);
    BlockedCourse([-1], |Serialized(resp)|);
    AnswerLate(c, resp);
  }

  /**
   * Where the last answer is cut off though the peer is there: its tail is going out when stop_keep_alive comes, and
   * the client sends another request. The mask still has the input, and the event is taken for a peer that left.
   */
  method StoppedTail(resp: Response) returns (c: Connection)
    requires |Serialized(resp)| <= HIGH_WATER
    ensures fresh(c) && c.Resting() && c.closed && c.aborts == 1
    ensures c.answers == [Reply(resp)] && c.env.sent == "" && Stream(c.answers) != ""
  {
    hide Connection.Valid, Connection.MaskOk, Connection.Hears, Connection.EndPending, Connection.Drained;
    hide Serialized, Stream, Grown, CourseOf;
    SerializedNonempty(resp);
    c := BlockedAnswer(resp);
    var now := c.StopKeepAlive();
    var keep := c.OnEvent(Events(true, false, false, false, false));
  }

  lemma SerializedNonempty(resp: Response)
    ensures Serialized(resp) != "" && Stream([Reply(resp)]) != ""
  {
    StreamAppend([], Reply(resp));
    assert [] + [Reply(resp)] == [Reply(resp)];
  }

  lemma HeadLonger(mime: string, size: nat)
    ensures |FileHead(mime, size, false)| > |mime|
  {
  }

  lemma BlockedCourse(transfers: seq<int>, size: nat)
    requires size > 0 && transfers != [] && transfers[0] == -1
    ensures CourseOf(transfers, size) == Course(-1, 0, transfers[1..])
  {
  }

  lemma ShortCourse(head: nat, size: nat, n: nat)
    requires n < size && head > 0
    ensures CourseOf([head, n, 0], head) == Course(1, head, [n, 0])
    ensures CourseOf([n, 0], size).end == 0 && CourseOf([n, 0], size).moved == n
  {
    var all: seq<int> := [head, n, 0];
    assert all[1..] == [n, 0] && all[2..] == [0];
    var rest: seq<int> := [n, 0];
    assert rest[1..] == [0];
  }

  lemma GoneCourse(head: nat, size: int)
    requires head > 0 && size > 0
    ensures CourseOf([-1, -2, size], head) == Course(-1, 0, [-2, size])
    ensures CourseOf([-2, size], head) == Course(-2, 0, [size]) && CourseOf([size], size) == Course(1, size, [])
  {
    var all: seq<int> := [-1, -2, size];
    assert all[1..] == [-2, size];
    var rest: seq<int> := [-2, size];
    assert rest[1..] == [size];
    NothingMoves([]);
  }

  /** A file answer's stream starts as every head does. */
  lemma HeadStarts(mime: string, content: string)
    ensures var s := Stream([File(mime, content, false)]);
      s != "" && s[0] == 'H' && s == FileHead(mime, |content|, false) + content
  {
    var a := File(mime, content, false);
    StreamAppend([], a);
    assert [] + [a] == [a];
    FileWire(mime, content, false);
  }
}
