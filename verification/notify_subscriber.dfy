/**
 * NotifySubscriber: a row of the queue is taken under a token and settled under it, once; the number
 * the database gave this subscriber is given back or forgotten, once. Answers come late, in any order
 * or never, and the module's handlers call back in.
 */
module NotifySubscribers {

  import opened Wrappers

  type Id = nat
  type Token = nat

  datatype Row = Row(id: Id, token: Token)

  /** What is sent to the database; a batch is one implicit transaction. */
  datatype Stmt =
    | Subscribe
    | Heartbeat(number: nat)
    | Take(id: Id, number: nat)
    | Result(sql: string)
    | Ack(id: Id, token: Token)
    | Nack(id: Id, token: Token)
    | Drain(number: nat)
    | Unsubscribe(number: nat)

  type Batch = seq<Stmt>

  /** What the module does inside a handler, or at any other time. */
  datatype Call = Complete(row: Row, result: string) | Refuse(row: Row) | Draining | Stopping

  /** The answer to a heartbeat. */
  datatype Pulse = Failed | Unknown | Known

  // ─── The part of a subscriber that rows go through ─────────────────────────

  datatype Sub = Sub(number: nat, taken: map<Id, Row>, draining: bool, stopped: bool)

  const FRESH := Sub(0, map[], false, false)

  /** The row is with the module, under this token. */
  predicate Has(u: Sub, row: Row) {
    row.id in u.taken && u.taken[row.id].token == row.token
  }

  /** One batch, and so one transaction, for the result together with its ack. */
  function Commit(row: Row, result: string): Batch {
    (if result == "" then [] else [Result(result)]) + [Ack(row.id, row.token)]
  }

  function Completed(u: Sub, row: Row, result: string): (Sub, seq<Batch>) {
    if Has(u, row) then (u.(taken := u.taken - {row.id}), [Commit(row, result)]) else (u, [])
  }

  function Refused(u: Sub, row: Row): (Sub, seq<Batch>) {
    if Has(u, row) then (u.(taken := u.taken - {row.id}), [[Nack(row.id, row.token)]]) else (u, [])
  }

  function Drained(u: Sub): (Sub, seq<Batch>) {
    if u.draining || u.stopped then (u, [])
    else (u.(draining := true), if u.number == 0 then [] else [[Drain(u.number)]])
  }

  lemma {:induction false} FindLeast(ids: set<Id>) returns (m: Id)
    requires ids != {}
    ensures m in ids && forall x :: x in ids ==> m <= x
    decreases |ids|
  {
    m :| m in ids;
    var rest := ids - {m};
    assert |rest| < |ids|;
    if rest != {} {
      var n := FindLeast(rest);
      assert forall x :: x in ids ==> x == m || x in rest;
      if n < m { m := n; }
    } else {
      assert forall x :: x in ids ==> x == m || x in rest;
    }
  }

  lemma HasLeast(ids: set<Id>)
    requires ids != {}
    ensures exists m :: m in ids && forall x :: x in ids ==> m <= x
  {
    var m := FindLeast(ids);
  }

  function Least(ids: set<Id>): (m: Id)
    requires ids != {}
    ensures m in ids && forall x :: x in ids ==> m <= x
  {
    HasLeast(ids);
    var m :| m in ids && forall x :: x in ids ==> m <= x;
    m
  }

  /** A refusal for each row held, in the order of their ids. */
  function Nacks(taken: map<Id, Row>): Batch
    decreases |taken|
  {
    if taken == map[] then []
    else
      var id := Least(taken.Keys);
      Shrinks(taken, id);
      [Nack(taken[id].id, taken[id].token)] + Nacks(taken - {id})
  }

  lemma Shrinks(taken: map<Id, Row>, id: Id)
    requires id in taken
    ensures |taken - {id}| < |taken|
  {
    assert (taken - {id}).Keys == taken.Keys - {id};
    assert |(taken - {id}).Keys| == |taken.Keys| - 1;
  }

  /** Drain first, then the refusals, then the deregistration: one batch. */
  function StopBatch(number: nat, taken: map<Id, Row>): Batch {
    (if number != 0 then [Drain(number)] else []) + Nacks(taken) + (if number != 0 then [Unsubscribe(number)] else [])
  }

  function Stopped(u: Sub): (Sub, seq<Batch>) {
    if u.stopped && u.number == 0 then (u.(draining := true), [])
    else (Sub(0, map[], true, true), if StopBatch(u.number, u.taken) == [] then [] else [StopBatch(u.number, u.taken)])
  }

  /** With a number there is something to send. */
  lemma NoNumber(number: nat, taken: map<Id, Row>)
    requires StopBatch(number, taken) == []
    ensures number == 0
  {
  }

  function Took(u: Sub, row: Row): (Sub, seq<Batch>) {
    var v := if row.id in u.taken then u else u.(taken := u.taken[row.id := row]);
    if v.stopped then Refused(v, row) else (v, [])
  }

  function Woken(u: Sub, id: Id): (Sub, seq<Batch>) {
    (u, if u.draining || u.stopped || u.number == 0 || id in u.taken then [] else [[Take(id, u.number)]])
  }

  function Called(u: Sub, call: Call): (Sub, seq<Batch>) {
    match call
    case Complete(row, result) => Completed(u, row, result)
    case Refuse(row) => Refused(u, row)
    case Draining => Drained(u)
    case Stopping => Stopped(u)
  }

  /** The calls of one handler, one after another. */
  function Handled(u: Sub, calls: seq<Call>): (Sub, seq<Batch>)
    decreases |calls|
  {
    if calls == [] then (u, [])
    else
      var (v, b) := Called(u, calls[0]);
      var (w, c) := Handled(v, calls[1..]);
      (w, b + c)
  }

  /** The row comes, its handler runs, and a handler that throws refuses the row. */
  function TookAndHandled(u: Sub, row: Row, calls: seq<Call>, throws: bool): (Sub, seq<Batch>) {
    var (v, b) := Took(u, row);
    if u.stopped then (v, b)
    else
      var (w, c) := Handled(v, calls);
      var (x, d) := if throws then Refused(w, row) else (w, []);
      (x, b + c + d)
  }

  /** A number is answered: after a stop it goes back at once, a draining one is drained, else the handler runs. */
  function Numbered(u: Sub, n: nat, calls: seq<Call>): (Sub, seq<Batch>) {
    if u.stopped then Stopped(u.(number := n))
    else
      var (v, b) := Handled(u.(number := n), calls);
      (v, (if u.draining then [[Stmt.Drain(n)]] else []) + b)
  }

  /** The database knows the number no more: the handler runs without one, and another is asked for. */
  function Forgot(u: Sub, calls: seq<Call>): (Sub, seq<Batch>) {
    var (v, b) := Handled(u.(number := 0), calls);
    (v, b + if v.draining || v.stopped then [] else [[Subscribe]])
  }

  // ─── What has been sent ────────────────────────────────────────────────────

  function Settles(s: Stmt): multiset<Row> {
    match s
    case Ack(id, token) => multiset{Row(id, token)}
    case Nack(id, token) => multiset{Row(id, token)}
    case _ => multiset{}
  }

  function Returns(s: Stmt): multiset<nat> {
    match s case Unsubscribe(n) => multiset{n} case _ => multiset{}
  }

  /** The rows a batch settles, by an ack or a nack. */
  function SettledIn(batch: Batch): multiset<Row> {
    if batch == [] then multiset{} else SettledIn(batch[..|batch| - 1]) + Settles(batch[|batch| - 1])
  }

  function Settled(sent: seq<Batch>): multiset<Row> {
    if sent == [] then multiset{} else Settled(sent[..|sent| - 1]) + SettledIn(sent[|sent| - 1])
  }

  /** The numbers a batch gives back. */
  function ReturnedIn(batch: Batch): multiset<nat> {
    if batch == [] then multiset{} else ReturnedIn(batch[..|batch| - 1]) + Returns(batch[|batch| - 1])
  }

  function Returned(sent: seq<Batch>): multiset<nat> {
    if sent == [] then multiset{} else Returned(sent[..|sent| - 1]) + ReturnedIn(sent[|sent| - 1])
  }

  lemma {:induction false} InOrder(a: Batch, b: Batch)
    ensures SettledIn(a + b) == SettledIn(a) + SettledIn(b) && ReturnedIn(a + b) == ReturnedIn(a) + ReturnedIn(b)
  {
    hide Settles, Returns;
    if b == [] {
      assert a + b == a;
    } else {
      var c, s := b[..|b| - 1], b[|b| - 1];
      InOrder(a, c);
      assert (a + b)[..|a + b| - 1] == a + c && (a + b)[|a + b| - 1] == s;
      assert SettledIn(a + b) == SettledIn(a + c) + Settles(s);
      assert ReturnedIn(a + b) == ReturnedIn(a + c) + Returns(s);
    }
  }

  lemma SentOne(sent: seq<Batch>, batch: Batch)
    ensures Settled(sent + [batch]) == Settled(sent) + SettledIn(batch)
    ensures Returned(sent + [batch]) == Returned(sent) + ReturnedIn(batch)
  {
    assert (sent + [batch])[..|sent|] == sent;
  }

  lemma OneStatement(s: Stmt)
    ensures SettledIn([s]) == Settles(s) && ReturnedIn([s]) == Returns(s)
  {
    assert [s][..0] == [];
  }

  predicate Holds(taken: map<Id, Row>, row: Row) {
    row.id in taken && taken[row.id] == row
  }

  predicate Keyed(taken: map<Id, Row>) {
    forall id :: id in taken ==> taken[id].id == id
  }

  /** The refusals of stop() are of the rows with the module, each once, and give no number back. */
  lemma {:induction false} NacksSettle(taken: map<Id, Row>, row: Row)
    requires Keyed(taken)
    ensures SettledIn(Nacks(taken))[row] == if Holds(taken, row) then 1 else 0
    ensures ReturnedIn(Nacks(taken)) == multiset{}
    decreases |taken|
  {
    if taken != map[] {
      var id := Least(taken.Keys);
      Shrinks(taken, id);
      var first := Nack(taken[id].id, taken[id].token);
      NacksSettle(taken - {id}, row);
      InOrder([first], Nacks(taken - {id}));
      OneStatement(first);
      assert taken[id] == Row(id, taken[id].token);
    }
  }

  /**
   * Every row the database gave out to this subscriber is in exactly one place: with the module, settled
   * by one statement, or shadowed, given under a new token while the module still had it under an older one.
   */
  ghost predicate RowsOk(taken: map<Id, Row>, settled: multiset<Row>, given: set<Row>, shadowed: set<Row>) {
    && Keyed(taken)
    && forall row :: (if Holds(taken, row) then 1 else 0) + settled[row] + (if row in shadowed then 1 else 0)
                     == (if row in given then 1 else 0)
  }

  lemma RowsBySettling(taken: map<Id, Row>, settled: multiset<Row>, given: set<Row>, shadowed: set<Row>, row: Row)
    requires RowsOk(taken, settled, given, shadowed) && Holds(taken, row)
    ensures RowsOk(taken - {row.id}, settled + multiset{row}, given, shadowed)
  {
    forall r: Row
      ensures (if Holds(taken - {row.id}, r) then 1 else 0)
              == (if Holds(taken, r) then 1 else 0) - (if r == row then 1 else 0)
    {
      if Holds(taken, r) && r.id == row.id { assert r == row; }
    }
  }

  lemma RowsByTaking(taken: map<Id, Row>, settled: multiset<Row>, given: set<Row>, shadowed: set<Row>, row: Row)
    requires RowsOk(taken, settled, given, shadowed) && row !in given
    ensures if row.id in taken then RowsOk(taken, settled, given + {row}, shadowed + {row})
            else RowsOk(taken[row.id := row], settled, given + {row}, shadowed)
  {
    assert !Holds(taken, row) && settled[row] == 0 && row !in shadowed;
    forall r: Row
      ensures row.id !in taken ==> (Holds(taken[row.id := row], r) <==> Holds(taken, r) || r == row)
    {
    }
  }

  /** The batch of stop() settles exactly the rows with the module, and gives the number back. */
  lemma StopSettles(u: Sub, row: Row)
    requires Keyed(u.taken)
    ensures SettledIn(StopBatch(u.number, u.taken))[row] == if Holds(u.taken, row) then 1 else 0
    ensures ReturnedIn(StopBatch(u.number, u.taken)) == Current(u.number)
  {
    var start := if u.number != 0 then [Drain(u.number)] else [];
    var end := if u.number != 0 then [Unsubscribe(u.number)] else [];
    InOrder(start, Nacks(u.taken));
    InOrder(start + Nacks(u.taken), end);
    if u.number != 0 {
      OneStatement(Drain(u.number));
      OneStatement(Unsubscribe(u.number));
    }
    NacksSettle(u.taken, row);
  }

  lemma RowsByStopping(u: Sub, settled: multiset<Row>, given: set<Row>, shadowed: set<Row>)
    requires RowsOk(u.taken, settled, given, shadowed)
    ensures RowsOk(map[], settled + SettledIn(StopBatch(u.number, u.taken)), given, shadowed)
    ensures ReturnedIn(StopBatch(u.number, u.taken)) == Current(u.number)
  {
    StopSettles(u, Row(0, 0));
    forall row: Row ensures SettledIn(StopBatch(u.number, u.taken))[row] == if Holds(u.taken, row) then 1 else 0 {
      StopSettles(u, row);
    }
    hide StopBatch;
  }

  /** The number in use, as a multiset of none or one. */
  function Current(number: nat): multiset<nat> {
    if number == 0 then multiset{} else multiset{number}
  }

  /** Every number the database answered is in use, was given back, or was forgotten by the database. */
  ghost predicate NumbersOk(answered: multiset<nat>, returned: multiset<nat>, forgotten: multiset<nat>, number: nat) {
    answered == returned + forgotten + Current(number)
  }

  /** A statement that settles no row and gives no number back. */
  lemma SentPlain(sent: seq<Batch>, s: Stmt)
    requires Settles(s) == multiset{} && Returns(s) == multiset{}
    ensures Settled(sent + [[s]]) == Settled(sent) && Returned(sent + [[s]]) == Returned(sent)
  {
    OneStatement(s);
    SentOne(sent, [s]);
  }

  lemma SentSettling(sent: seq<Batch>, batch: Batch, row: Row)
    requires SettledIn(batch) == multiset{row} && ReturnedIn(batch) == multiset{}
    ensures Settled(sent + [batch]) == Settled(sent) + multiset{row} && Returned(sent + [batch]) == Returned(sent)
  {
    SentOne(sent, batch);
  }

  lemma CommitSettles(row: Row, result: string)
    ensures SettledIn(Commit(row, result)) == multiset{row} && ReturnedIn(Commit(row, result)) == multiset{}
  {
    OneStatement(Result(result));
    OneStatement(Ack(row.id, row.token));
    InOrder([Result(result)], [Ack(row.id, row.token)]);
  }

  /** The ledgers after the batch of stop(), which is sent unless it is empty. */
  lemma AfterStop(number: nat, taken: map<Id, Row>, sent: seq<Batch>, given: set<Row>, shadowed: set<Row>,
                  answered: multiset<nat>, forgotten: multiset<nat>)
    requires RowsOk(taken, Settled(sent), given, shadowed) && NumbersOk(answered, Returned(sent), forgotten, number)
    ensures var sql := StopBatch(number, taken);
      var after := if sql == [] then sent else sent + [sql];
      && RowsOk(map[], Settled(after), given, shadowed) && NumbersOk(answered, Returned(after), forgotten, 0)
      && (sql == [] ==> number == 0)
  {
    hide RowsOk, NumbersOk, Settled, Returned, SettledIn, ReturnedIn, StopBatch;
    var sql := StopBatch(number, taken);
    RowsByStopping(Sub(number, taken, true, true), Settled(sent), given, shadowed);
    NumbersByReturning(answered, Returned(sent), forgotten, number);
    SentOne(sent, sql);
    if sql == [] {
      NothingSent(sent);
      NoNumber(number, taken);
    }
  }

  /** One batch more, which drains the number first and gives it back last. */
  ghost predicate GivesBack(was: seq<Batch>, sent: seq<Batch>, number: nat) {
    && |sent| == |was| + 1 && was <= sent
    && var sql := sent[|was|]; |sql| >= 2 && sql[0] == Stmt.Drain(number) && sql[|sql| - 1] == Unsubscribe(number)
  }

  /** The ledgers after the batch of stop(): each row held is settled, and the number is given back. */
  lemma StopLedgers(number: nat, taken: map<Id, Row>, sent: seq<Batch>, after: seq<Batch>)
    requires Keyed(taken)
    requires after == if StopBatch(number, taken) == [] then sent else sent + [StopBatch(number, taken)]
    ensures Returned(after) == Returned(sent) + Current(number)
    ensures forall row :: Settled(after)[row] == Settled(sent)[row] + if Holds(taken, row) then 1 else 0
  {
    hide StopBatch, Holds, Current, Keyed;
    var sql := StopBatch(number, taken);
    StopSettles(Sub(number, taken, true, true), Row(0, 0));
    forall row: Row ensures SettledIn(sql)[row] == if Holds(taken, row) then 1 else 0 {
      StopSettles(Sub(number, taken, true, true), row);
    }
    if sql == [] {
      NothingSent(sent);
    }
    SentOne(sent, sql);
    hide Settled, Returned, SettledIn, ReturnedIn;
  }

  lemma StopEnds(number: nat, taken: map<Id, Row>)
    requires number != 0
    ensures var sql := StopBatch(number, taken);
      |sql| >= 2 && sql[0] == Stmt.Drain(number) && sql[|sql| - 1] == Unsubscribe(number)
  {
    hide Nacks;
  }

  /** The loop of stop() over the rows, in the order of their ids. */
  method AppendNacks(start: Batch, taken: map<Id, Row>) returns (sql: Batch)
    ensures sql == start + Nacks(taken)
  {
    sql := start;
    var rest := taken;
    while rest != map[]
      invariant sql + Nacks(rest) == start + Nacks(taken)
      decreases |rest|
    {
      var id := Least(rest.Keys);
      Shrinks(rest, id);
      NacksNext(rest, id);
      var next := Nack(rest[id].id, rest[id].token);
      assert sql + ([next] + Nacks(rest - {id})) == (sql + [next]) + Nacks(rest - {id});
      sql := sql + [next];
      rest := rest - {id};
    }
    assert sql + Nacks(rest) == sql;
  }

  method StopSql(number: nat, taken: map<Id, Row>) returns (sql: Batch)
    ensures sql == StopBatch(number, taken)
  {
    sql := AppendNacks(if number != 0 then [Drain(number)] else [], taken);
    if number != 0 { sql := sql + [Unsubscribe(number)]; }
  }

  // ─── The text of a confirmation ────────────────────────────────────────────

  predicate Separator(c: char) {
    c == ';' || c == ' ' || c == '\n' || c == '\t' || c == '\r'
  }

  /** Whether a "--" comment is still open at the end of the text. */
  function InComment(sql: string): bool {
    if sql == "" then false
    else
      var rest, c := sql[..|sql| - 1], sql[|sql| - 1];
      c != '\n' && (InComment(rest) || (c == '-' && rest != "" && rest[|rest| - 1] == '-'))
  }

  /**
   * The result's statement less its closing separators, then the confirmation; no comment in the result
   * swallows it.
   */
  method AckSql(ack: string, result: string) returns (sql: string, ghost kept: nat)
    ensures kept <= |result| && (forall k :: kept <= k < |result| ==> Separator(result[k]))
    ensures kept > 0 ==> !Separator(result[kept - 1])
    ensures |sql| >= |ack| && sql[|sql| - |ack|..] == ack && !InComment(sql[..|sql| - |ack|])
    ensures sql[..|sql| - |ack|] == if kept == 0 then "" else result[..kept] + "\n;\n"
  {
    sql := result;
    while sql != "" && Separator(sql[|sql| - 1])
      invariant sql <= result && forall k :: |sql| <= k < |result| ==> Separator(result[k])
      decreases |sql|
    {
      sql := sql[..|sql| - 1];
    }
    kept := |sql|;
    if sql != "" { sql := sql + "\n;\n"; }
    assert (sql + ack)[..|sql|] == sql && (sql + ack)[|sql|..] == ack;
    sql := sql + ack;
  }

  class NotifySubscriber {
    var number: nat
    var taken: map<Id, Row>
    var started: bool
    var subscribing: bool
    var draining: bool
    var stopped: bool
    var retryArmed: bool
    var heartbeat: Option<nat>          // in flight, for this number
    var sent: seq<Batch>                // everything handed to the pool and the listener

    ghost var given: set<Row>           // rows the database answered a take with
    ghost var shadowed: set<Row>
    ghost var answered: multiset<nat>   // numbers the database answered a subscribe with
    ghost var forgotten: multiset<nat>  // numbers a heartbeat found unknown

    constructor ()
      ensures Valid() && sent == [] && given == {} && answered == multiset{} && View() == FRESH
    {
      number, taken, sent := 0, map[], [];
      started, subscribing, draining, stopped, retryArmed, heartbeat := false, false, false, false, false, None;
      given, shadowed, answered, forgotten := {}, {}, multiset{}, multiset{};
    }

    function View(): Sub
      reads this
    {
      Sub(number, taken, draining, stopped)
    }

    /** Nothing is left with a subscriber that was stopped: no number, and no row. */
    ghost predicate Valid()
      reads this
    {
      Coherent() && (stopped ==> number == 0 && taken == map[])
    }

    ghost predicate Coherent()
      reads this
    {
      && RowsOk(taken, Settled(sent), given, shadowed)
      && NumbersOk(answered, Returned(sent), forgotten, number)
      && (subscribing || retryArmed || !started ==> number == 0)
      && !(subscribing && retryArmed)
      && (subscribing || retryArmed || heartbeat.Some? ==> started)
      && heartbeat != Some(0)
    }

    /** No row is settled twice, none that was not given, and none that is still with the module. */
    lemma Kept(row: Row)
      requires Valid()
      ensures Settled(sent)[row] <= 1
      ensures Settled(sent)[row] == 1 ==> row in given && !Holds(taken, row)
      ensures row in given && row !in shadowed && !Holds(taken, row) ==> Settled(sent)[row] == 1
      ensures answered == Returned(sent) + forgotten + Current(number)
      ensures stopped ==> number == 0 && answered == Returned(sent) + forgotten
      ensures stopped && row in given && row !in shadowed ==> Settled(sent)[row] == 1
    {
      hide Settled, Returned;
    }

    // ── Settling ──

    method CompleteRow(row: Row, result: string) returns (ok: bool)
      requires Valid()
      modifies this`taken, this`sent
      ensures Valid() && ok == Has(old(View()), row)
      ensures View() == Completed(old(View()), row, result).0
      ensures sent == old(sent) + Completed(old(View()), row, result).1
      ensures if ok then
                && taken == old(taken) - {row.id}
                && sent == old(sent) + [(if result == "" then [] else [Result(result)]) + [Ack(row.id, row.token)]]
              else
                taken == old(taken) && sent == old(sent)
    {
      hide RowsOk, NumbersOk, Settled, Returned, SettledIn, ReturnedIn;
      ok := row.id in taken && taken[row.id].token == row.token;
      if !ok { return; }
      HeldByToken(taken, Settled(sent), given, shadowed, row);
      RowsBySettling(taken, Settled(sent), given, shadowed, row);
      CommitSettles(row, result);
      SentSettling(sent, Commit(row, result), row);
      taken := taken - {row.id};
      sent := sent + [Commit(row, result)];
    }

    method RefuseRow(row: Row)
      requires Coherent()
      modifies this`taken, this`sent
      ensures Coherent() && (old(Valid()) ==> Valid())
      ensures View() == Refused(old(View()), row).0 && sent == old(sent) + Refused(old(View()), row).1
      ensures !Has(View(), row)
      ensures if Has(old(View()), row)
              then taken == old(taken) - {row.id} && sent == old(sent) + [[Nack(row.id, row.token)]]
              else taken == old(taken) && sent == old(sent)
    {
      hide RowsOk, NumbersOk, Settled, Returned, SettledIn, ReturnedIn;
      if row.id !in taken || taken[row.id].token != row.token { return; }
      HeldByToken(taken, Settled(sent), given, shadowed, row);
      RowsBySettling(taken, Settled(sent), given, shadowed, row);
      OneStatement(Nack(row.id, row.token));
      SentSettling(sent, [Nack(row.id, row.token)], row);
      taken := taken - {row.id};
      sent := sent + [[Nack(row.id, row.token)]];
    }

    method Drain()
      requires Valid()
      modifies this`draining, this`retryArmed, this`sent
      ensures Valid() && (!old(retryArmed) ==> !retryArmed)
      ensures View() == Drained(old(View())).0 && sent == old(sent) + Drained(old(View())).1
      ensures draining || stopped
      ensures sent == old(sent) + if old(draining || stopped) || number == 0 then [] else [[Stmt.Drain(number)]]
    {
      hide RowsOk, NumbersOk, Settled, Returned, SettledIn, ReturnedIn;
      if draining || stopped { return; }
      draining := true;
      retryArmed := false;
      if number == 0 { return; }
      SentPlain(sent, Stmt.Drain(number));
      sent := sent + [[Stmt.Drain(number)]];
    }

    /** Refused is what is held; a row whose completion was sent is held no more. */
    method Stop()
      requires Coherent() && (stopped ==> taken == map[])
      modifies this`number, this`taken, this`draining, this`stopped, this`retryArmed, this`sent
      ensures Valid() && (!old(retryArmed) ==> !retryArmed)
      ensures View() == Stopped(old(View())).0 && sent == old(sent) + Stopped(old(View())).1
      ensures stopped && draining && Returned(sent) == old(Returned(sent)) + Current(old(number))
      ensures forall row :: Settled(sent)[row] == old(Settled(sent))[row] + if Holds(old(taken), row) then 1 else 0
      ensures old(number) != 0 ==> GivesBack(old(sent), sent, old(number))
    {
      hide RowsOk, NumbersOk, Settled, Returned, StopBatch, GivesBack;
      var first := !stopped;
      stopped, draining, retryArmed := true, true, false;
      if !first && number == 0 { return; }
      Deregister();
    }

    lemma KeyedRows()
      requires Coherent()
      ensures Keyed(taken)
    {
      hide NumbersOk, Settled, Returned;
    }

    /** The batch of stop(): the rows go, and the number. */
    method Deregister()
      requires Coherent()
      modifies this`number, this`taken, this`sent
      ensures Valid() && number == 0 && taken == map[]
      ensures var sql := StopBatch(old(number), old(taken)); sent == old(sent) + if sql == [] then [] else [sql]
      ensures Returned(sent) == old(Returned(sent)) + Current(old(number))
      ensures forall row :: Settled(sent)[row] == old(Settled(sent))[row] + if Holds(old(taken), row) then 1 else 0
      ensures old(number) != 0 ==> GivesBack(old(sent), sent, old(number))
    {
      hide RowsOk, NumbersOk, Settled, Returned, StopBatch, Holds;
      AfterStop(number, taken, sent, given, shadowed, answered, forgotten);
      KeyedRows();
      if number != 0 { StopEnds(number, taken); }
      var sql := StopSql(number, taken);
      StopLedgers(number, taken, sent, if sql == [] then sent else sent + [sql]);
      taken := map[];
      if sql == [] { return; }
      sent := sent + [sql];
      number := 0;
    }

    // ── The module's handlers ──

    method DoCall(call: Call)
      requires Valid()
      modifies this`number, this`taken, this`draining, this`stopped, this`retryArmed, this`sent
      ensures Valid() && (!old(retryArmed) ==> !retryArmed)
      ensures View() == Called(old(View()), call).0 && sent == old(sent) + Called(old(View()), call).1
    {
      hide RowsOk, NumbersOk, Settled, Returned, Completed, Refused, Drained, Stopped;
      match call
      case Complete(row, result) => var ok := CompleteRow(row, result);
      case Refuse(row) => RefuseRow(row);
      case Draining => Drain();
      case Stopping => Stop();
    }

    method RunHandler(calls: seq<Call>)
      requires Valid()
      modifies this`number, this`taken, this`draining, this`stopped, this`retryArmed, this`sent
      ensures Valid() && (old(number) == 0 ==> number == 0) && (!old(retryArmed) ==> !retryArmed)
      ensures calls == [] ==> View() == old(View()) && sent == old(sent)
      ensures View() == Handled(old(View()), calls).0 && sent == old(sent) + Handled(old(View()), calls).1
      decreases |calls|
    {
      hide RowsOk, NumbersOk, Settled, Returned, Completed, Refused, Drained, Stopped;
      if calls == [] { return; }
      CallKeepsNoNumber(View(), calls[0]);
      DoCall(calls[0]);
      RunHandler(calls[1..]);
    }

    // ── Taking ──

    method OnWake(id: Id)
      requires Valid()
      modifies this`sent
      ensures Valid()
      ensures View() == Woken(old(View()), id).0 && sent == old(sent) + Woken(old(View()), id).1
      ensures sent == old(sent) + if draining || stopped || number == 0 || id in taken then [] else [[Take(id, number)]]
    {
      hide RowsOk, NumbersOk, Settled, Returned, SettledIn, ReturnedIn, Handled;
      if draining || stopped || number == 0 { return; }
      if id in taken { return; }
      SentPlain(sent, Take(id, number));
      sent := sent + [[Take(id, number)]];
    }

    /** The row a take was answered with; its token is new. A handler that throws refuses the row. */
    method OnTaken(row: Row, calls: seq<Call>, throws: bool)
      requires Valid() && row !in given
      modifies this`number, this`taken, this`draining, this`stopped, this`retryArmed, this`sent, this`given,
               this`shadowed
      ensures Valid() && given == old(given) + {row}
      ensures View() == TookAndHandled(old(View()), row, calls, throws).0
      ensures sent == old(sent) + TookAndHandled(old(View()), row, calls, throws).1
      ensures old(stopped) ==> taken == map[] && sent == old(sent) + [[Nack(row.id, row.token)]]
      ensures throws ==> !Has(View(), row)
      ensures calls == [] && !throws && !old(stopped) && row.id !in old(taken) ==>
        taken == old(taken)[row.id := row] && sent == old(sent)
    {
      hide RowsOk, NumbersOk, Settled, Returned, Refused, Handled;
      Place(row);
      if stopped {
        assert Has(View(), row) && map[row.id := row] - {row.id} == map[];
        RefuseRow(row);
        return;
      }
      RunHandler(calls);
      if throws { RefuseRow(row); }
    }

    /** The row goes to the module, or under the older one it still has of that id. */
    method Place(row: Row)
      requires Valid() && row !in given
      modifies this`taken, this`given, this`shadowed
      ensures Coherent() && (!stopped ==> Valid()) && given == old(given) + {row}
      ensures taken == if row.id in old(taken) then old(taken) else old(taken)[row.id := row]
    {
      hide RowsOk, NumbersOk, Settled, Returned;
      RowsByTaking(taken, Settled(sent), given, shadowed, row);
      given := given + {row};
      if row.id in taken { shadowed := shadowed + {row}; } else { taken := taken[row.id := row]; }
    }

    // ── The number ──

    method Start()
      requires Valid()
      modifies this`started, this`subscribing, this`sent
      ensures Valid() && started
      ensures !old(started) && !draining && !stopped ==> subscribing && sent == old(sent) + [[Subscribe]]
      ensures old(started) ==> sent == old(sent)
    {
      if started { return; }
      started := true;
      SubscribeNow();
    }

    method SubscribeNow()
      requires Valid() && started && number == 0 && !retryArmed
      modifies this`subscribing, this`sent
      ensures Valid()
      ensures if old(subscribing) || draining || stopped then sent == old(sent) && subscribing == old(subscribing)
              else sent == old(sent) + [[Subscribe]] && subscribing
    {
      hide RowsOk, NumbersOk, Settled, Returned, SettledIn, ReturnedIn, Handled;
      if subscribing || draining || stopped { return; }
      subscribing := true;
      SentPlain(sent, Subscribe);
      sent := sent + [[Subscribe]];
    }

    method ArmRetry()
      requires Valid() && started && number == 0 && !subscribing
      modifies this`retryArmed
      ensures Valid() && retryArmed == (!draining && !stopped)
    {
      retryArmed := !draining && !stopped;
    }

    method OnRetry()
      requires Valid() && retryArmed
      modifies this`retryArmed, this`subscribing, this`sent
      ensures Valid() && !retryArmed
    {
      retryArmed := false;
      SubscribeNow();
    }

    /** The answer to a subscribe: a number, or a failure. */
    method OnSubscribeAnswer(answer: Option<int>, calls: seq<Call>)
      requires Valid() && subscribing
      modifies this
      ensures Valid() && (answer == None ==> retryArmed == (!draining && !stopped) && answered == old(answered))
      ensures given == old(given)
      ensures if answer.Some? && answer.value > 0
              then answered == old(answered) + multiset{answer.value as nat}
                && View() == Numbered(old(View()), answer.value, calls).0
                && sent == old(sent) + Numbered(old(View()), answer.value, calls).1
                && (old(stopped) ==> GivenBackAtOnce(answer.value))
                && (old(draining && !stopped) ==> old(sent) + [[Stmt.Drain(answer.value)]] <= sent)
                && (calls == [] && !old(stopped) ==> number == answer.value)
              else answered == old(answered) && View() == old(View()) && sent == old(sent)
    {
      hide RowsOk, NumbersOk, Settled, Returned, Handled, Numbered, GivesBack;
      subscribing := false;
      if answer == None {
        ArmRetry();
        return;
      }
      OnSubscribed(answer.value, calls);
    }

    /** A number that comes after the stop is given back at once. */
    method OnSubscribed(n: int, calls: seq<Call>)
      requires Valid() && started && number == 0 && !subscribing && !retryArmed
      modifies this
      ensures Valid()
      ensures given == old(given)
      ensures n > 0 ==>
        && answered == old(answered) + multiset{n as nat}
        && View() == Numbered(old(View()), n, calls).0 && sent == old(sent) + Numbered(old(View()), n, calls).1
        && (old(stopped) ==> GivenBackAtOnce(n))
        && (old(draining && !stopped) ==> old(sent) + [[Stmt.Drain(n)]] <= sent)
        && (calls == [] && !old(stopped) ==> number == n)
      ensures n <= 0 ==>
        && answered == old(answered) && View() == old(View()) && sent == old(sent)
        && retryArmed == (!draining && !stopped)
    {
      hide RowsOk, NumbersOk, Settled, Returned, Numbered, NotifySubscriber.GivenBackAtOnce;
      if n <= 0 {
        ArmRetry();
        return;
      }
      TakeNumber(n, calls);
    }

    /** The number of a stopped subscriber is drained and given back in one batch, and nothing else is. */
    twostate predicate GivenBackAtOnce(n: nat)
      reads this
    {
      && stopped && number == 0 && taken == map[] && GivesBack(old(sent), sent, n)
      && Returned(sent) == old(Returned(sent)) + multiset{n} && Settled(sent) == old(Settled(sent))
    }

    method TakeNumber(n: nat, calls: seq<Call>)
      requires Valid() && started && number == 0 && !subscribing && !retryArmed && n > 0
      modifies this`number, this`taken, this`draining, this`stopped, this`retryArmed, this`sent, this`answered
      ensures Valid() && answered == old(answered) + multiset{n}
      ensures View() == Numbered(old(View()), n, calls).0 && sent == old(sent) + Numbered(old(View()), n, calls).1
      ensures old(stopped) ==> GivenBackAtOnce(n)
      ensures old(draining && !stopped) ==> old(sent) + [[Stmt.Drain(n)]] <= sent
      ensures calls == [] && !old(stopped) ==> number == n
    {
      hide RowsOk, NumbersOk, Settled, Returned, SettledIn, ReturnedIn, Handled, Stopped, GivesBack;
      NumbersByAnswer(answered, Returned(sent), forgotten, n);
      answered := answered + multiset{n};
      number := n;
      if stopped { GiveBack(n); } else { UseNumber(n, calls); }
    }

    method UseNumber(n: nat, calls: seq<Call>)
      requires Valid() && !stopped && number == n > 0
      modifies this`number, this`taken, this`draining, this`stopped, this`retryArmed, this`sent
      ensures Valid() && (!old(retryArmed) ==> !retryArmed)
      ensures View() == Numbered(old(View()), n, calls).0 && sent == old(sent) + Numbered(old(View()), n, calls).1
      ensures old(draining) ==> old(sent) + [[Stmt.Drain(n)]] <= sent
      ensures calls == [] ==> number == n
    {
      hide RowsOk, NumbersOk, Settled, Returned, SettledIn, ReturnedIn, Handled;
      if draining {
        SentPlain(sent, Stmt.Drain(n));
        sent := sent + [[Stmt.Drain(n)]];
      }
      RunHandler(calls);
    }

    /** Stopped while the answer was on its way. */
    method GiveBack(n: nat)
      requires Coherent() && stopped && number == n > 0 && taken == map[]
      modifies this`number, this`taken, this`draining, this`stopped, this`retryArmed, this`sent
      ensures Valid() && GivenBackAtOnce(n)
      ensures View() == Stopped(old(View())).0 && sent == old(sent) + Stopped(old(View())).1
    {
      hide RowsOk, NumbersOk, Settled, Returned, SettledIn, ReturnedIn, Stopped, GivesBack;
      Stop();
      assert Settled(sent) == old(Settled(sent));
    }

    method HeartbeatNow()
      requires Valid()
      modifies this`heartbeat, this`sent
      ensures Valid()
      ensures if number == 0 || stopped || old(heartbeat).Some? then sent == old(sent) && heartbeat == old(heartbeat)
              else heartbeat == Some(number) && sent == old(sent) + [[Heartbeat(number)]]
    {
      hide RowsOk, NumbersOk, Settled, Returned, SettledIn, ReturnedIn, Handled;
      if number == 0 || stopped || heartbeat.Some? { return; }
      heartbeat := Some(number);
      SentPlain(sent, Heartbeat(number));
      sent := sent + [[Heartbeat(number)]];
    }

    /** A number the database does not know any more is forgotten, and another is asked for. */
    method OnHeartbeat(pulse: Pulse, calls: seq<Call>)
      requires Valid() && heartbeat.Some?
      modifies this
      ensures Valid() && heartbeat == None && answered == old(answered)
      ensures forgotten == old(forgotten) + (if pulse == Unknown && old(heartbeat) == Some(old(number)) && !old(stopped)
                                             then Current(old(number)) else multiset{})
      ensures var to := if pulse == Failed || old(heartbeat) != Some(old(number)) || old(stopped) then (old(View()), [])
                        else if pulse == Known then Handled(old(View()), calls) else Forgot(old(View()), calls);
        View() == to.0 && sent == old(sent) + to.1
      ensures pulse == Unknown && old(heartbeat == Some(number) && !stopped) ==>
        number == 0 && (!draining && !stopped && !old(subscribing) ==> sent != [] && sent[|sent| - 1] == [Subscribe])
    {
      hide RowsOk, NumbersOk, Settled, Returned, SettledIn, ReturnedIn, Handled;
      var n := heartbeat.value;
      heartbeat := None;
      if pulse == Failed || n != number || stopped { return; }
      if pulse == Known {
        RunHandler(calls);
        return;
      }
      Forget(calls);
    }

    method Forget(calls: seq<Call>)
      requires Valid() && started && number != 0
      modifies this`number, this`taken, this`draining, this`stopped, this`retryArmed, this`subscribing, this`sent,
               this`forgotten
      ensures Valid() && number == 0 && forgotten == old(forgotten) + Current(old(number))
      ensures View() == Forgot(old(View()), calls).0 && sent == old(sent) + Forgot(old(View()), calls).1
      ensures !draining && !stopped && !old(subscribing) ==> sent != [] && sent[|sent| - 1] == [Subscribe]
    {
      hide RowsOk, NumbersOk, Settled, Returned, SettledIn, ReturnedIn, Handled;
      NumbersByForgetting(answered, Returned(sent), forgotten, number);
      forgotten := forgotten + Current(number);
      number := 0;
      RunHandler(calls);
      SubscribeNow();
    }
  }

  lemma CallKeepsNoNumber(u: Sub, call: Call)
    ensures u.number == 0 ==> Called(u, call).0.number == 0
  {
  }

  lemma NumbersByAnswer(answered: multiset<nat>, returned: multiset<nat>, forgotten: multiset<nat>, n: nat)
    requires NumbersOk(answered, returned, forgotten, 0) && n > 0
    ensures NumbersOk(answered + multiset{n}, returned, forgotten, n)
  {
  }

  lemma NumbersByForgetting(answered: multiset<nat>, returned: multiset<nat>, forgotten: multiset<nat>, number: nat)
    requires NumbersOk(answered, returned, forgotten, number)
    ensures NumbersOk(answered, returned, forgotten + Current(number), 0)
  {
  }

  lemma HeldByToken(taken: map<Id, Row>, settled: multiset<Row>, given: set<Row>, shadowed: set<Row>, row: Row)
    requires RowsOk(taken, settled, given, shadowed) && row.id in taken && taken[row.id].token == row.token
    ensures Holds(taken, row)
  {
  }

  lemma NacksNext(taken: map<Id, Row>, id: Id)
    requires taken != map[] && id == Least(taken.Keys)
    ensures Nacks(taken) == [Nack(taken[id].id, taken[id].token)] + Nacks(taken - {id})
  {
  }

  lemma NumbersByReturning(answered: multiset<nat>, returned: multiset<nat>, forgotten: multiset<nat>, number: nat)
    requires NumbersOk(answered, returned, forgotten, number)
    ensures NumbersOk(answered, returned + Current(number), forgotten, 0)
  {
  }

  lemma NothingSent(sent: seq<Batch>)
    ensures Settled(sent) + SettledIn([]) == Settled(sent) && Returned(sent) + ReturnedIn([]) == Returned(sent)
  {
  }
}
