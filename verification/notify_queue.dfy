/**
 * The queue and its subscribers together: any number of processes, rows given out under fresh tokens,
 * leases that run out, messages lost or repeated, processes that crash. The database side is the contract
 * the subscriber is written against: a take gives a new token, and a batch whose ack is not under the
 * row's current token is rolled back whole.
 */
module NotifyQueue {

  import opened NotifySubscribers
  import opened Wrappers

  type Pid = nat

  datatype RowState = Waiting | Taken(token: Token) | Closed(done: bool)

  /** What a statement has done to the database for good: a result executed, or a row confirmed under a token. */
  datatype Effect = Wrote(sql: string) | Acked(row: Row)

  datatype Db = Db(rows: map<Id, RowState>, nextToken: Token, log: seq<Effect>)

  datatype Msg = Request(from: Pid, batch: Batch) | Given(to: Pid, row: Row)

  /** issued: to whom each token went; sent: every batch the subscribers have sent; own: what modules sent past them. */
  datatype System = System(db: Db, subs: map<Pid, Sub>, net: multiset<Msg>, issued: map<Token, (Id, Pid)>,
                           sent: seq<Batch>, own: seq<Batch>)

  datatype Act =
    | Wake(p: Pid, id: Id)
    | Subscribed(p: Pid, number: nat, calls: seq<Call>) // the number this subscriber is answered
    | Forgotten(p: Pid, calls: seq<Call>)               // a heartbeat finds its number unknown
    | Receive(p: Pid, row: Row, calls: seq<Call>, throws: bool) // the answer to a take arrives and its handler runs
    | Module(p: Pid, call: Call)
    | Deliver(p: Pid, batch: Batch, again: bool) // the database runs a batch; again: a refused row may be given anew
    | Grant(p: Pid, id: Id, number: nat)         // the database runs a take that finds the row waiting
    | Lose(msg: Msg)
    | Repeat(p: Pid, batch: Batch)              // a confirmation sent before is sent once more
    | Own(p: Pid, row: Row, result: string)     // a module sends the statement of a confirmation by itself
    | Expire(id: Id, again: bool)               // the lease runs out
    | Crash(p: Pid)
    | Add(id: Id)

  // ─── The database ──────────────────────────────────────────────────────────

  predicate Current(db: Db, row: Row) {
    row.id in db.rows && db.rows[row.id] == RowState.Taken(row.token)
  }

  function Refuse1(db: Db, row: Row, again: bool): Db {
    if Current(db, row) then db.(rows := db.rows[row.id := if again then Waiting else Closed(false)]) else db
  }

  /** The statements of a batch in order; None: one of them was refused. */
  function Ran(db: Db, batch: Batch, again: bool): Option<Db>
    decreases |batch|
  {
    if batch == [] then Some(db)
    else
      match batch[0]
      case Result(sql) => Ran(db.(log := db.log + [Wrote(sql)]), batch[1..], again)
      case Ack(id, token) =>
        if Current(db, Row(id, token)) then Ran(Confirmed(db, Row(id, token)), batch[1..], again) else None
      case Nack(id, token) => Ran(Refuse1(db, Row(id, token), again), batch[1..], again)
      case _ => Ran(db, batch[1..], again)
  }

  function Confirmed(db: Db, row: Row): Db {
    db.(rows := db.rows[row.id := Closed(true)], log := db.log + [Acked(row)])
  }

  /** One transaction. */
  function Executed(db: Db, batch: Batch, again: bool): Db {
    match Ran(db, batch, again)
    case Some(after) => after
    case None => db
  }

  /** A row is closed as done exactly when one confirmation of it was accepted. */
  ghost predicate DbOk(db: Db) {
    && (forall i, j :: 0 <= i < j < |db.log| && db.log[i].Acked? && db.log[j].Acked? ==>
          db.log[i].row.id != db.log[j].row.id)
    && (forall i :: 0 <= i < |db.log| && db.log[i].Acked? ==>
          db.log[i].row.id in db.rows && db.rows[db.log[i].row.id] == Closed(true))
    && (forall id :: id in db.rows && db.rows[id] == Closed(true) ==>
          exists i :: 0 <= i < |db.log| && db.log[i].Acked? && db.log[i].row.id == id)
  }

  /** Every result executed has a confirmation of its own, directly after it. */
  predicate PairedOk(log: seq<Effect>) {
    forall k :: 0 <= k < |log| && log[k].Wrote? ==> k + 1 < |log| && log[k + 1].Acked?
  }

  /** The result executed with a confirmation; empty when there was none. */
  function ResultAt(log: seq<Effect>, i: nat): string
    requires i < |log|
  {
    if i > 0 && log[i - 1].Wrote? then log[i - 1].sql else ""
  }

  lemma AckOk(db: Db, row: Row)
    requires DbOk(db) && Current(db, row)
    ensures DbOk(Confirmed(db, row))
  {
    var after := Confirmed(db, row);
    forall id | id in after.rows && after.rows[id] == Closed(true)
      ensures exists i :: 0 <= i < |after.log| && after.log[i].Acked? && after.log[i].row.id == id
    {
      if id == row.id {
        assert after.log[|db.log|].row.id == id;
      } else {
        var i :| 0 <= i < |db.log| && db.log[i].Acked? && db.log[i].row.id == id;
        assert after.log[i].row.id == id;
      }
    }
  }

  lemma WroteOk(db: Db, sql: string)
    requires DbOk(db)
    ensures DbOk(db.(log := db.log + [Wrote(sql)]))
  {
    var after := db.(log := db.log + [Wrote(sql)]);
    forall id | id in db.rows && db.rows[id] == Closed(true)
      ensures exists i :: 0 <= i < |after.log| && after.log[i].Acked? && after.log[i].row.id == id
    {
      var i :| 0 <= i < |db.log| && db.log[i].Acked? && db.log[i].row.id == id;
      assert after.log[i].row.id == id;
    }
  }

  lemma RefuseOk(db: Db, row: Row, again: bool)
    requires DbOk(db)
    ensures DbOk(Refuse1(db, row, again)) && Refuse1(db, row, again).log == db.log
  {
  }

  lemma {:induction false} RanOk(db: Db, batch: Batch, again: bool)
    requires DbOk(db)
    ensures Ran(db, batch, again).Some? ==>
      DbOk(Ran(db, batch, again).value) && db.log <= Ran(db, batch, again).value.log
    decreases |batch|
  {
    if batch != [] {
      match batch[0]
      case Result(sql) =>
        WroteOk(db, sql);
        hide DbOk;
        RanOk(db.(log := db.log + [Wrote(sql)]), batch[1..], again);
      case Ack(id, token) =>
        if Current(db, Row(id, token)) {
          AckOk(db, Row(id, token));
          hide DbOk;
          RanOk(Confirmed(db, Row(id, token)), batch[1..], again);
        }
      case Nack(id, token) =>
        RefuseOk(db, Row(id, token), again);
        hide DbOk;
        RanOk(Refuse1(db, Row(id, token), again), batch[1..], again);
      case _ => RanOk(db, batch[1..], again);
    }
  }

  /** Whatever batch arrives, from whomever: a row is confirmed once at most, and exactly when it is done. */
  lemma ExecutedOk(db: Db, batch: Batch, again: bool)
    requires DbOk(db)
    ensures DbOk(Executed(db, batch, again)) && db.log <= Executed(db, batch, again).log
  {
    RanOk(db, batch, again);
  }

  /** The database does not see to it that a result has a confirmation: one sent by itself is executed, and stays. */
  lemma ResultAlone(db: Db, sql: string, again: bool)
    ensures Executed(db, [Result(sql)], again) == db.(log := db.log + [Wrote(sql)])
    ensures !PairedOk(Executed(db, [Result(sql)], again).log)
  {
    var batch: Batch, wrote := [Result(sql)], db.(log := db.log + [Wrote(sql)]);
    assert batch[1..] == [] && Ran(wrote, batch[1..], again) == Some(wrote);
    assert wrote.log[|db.log|].Wrote?;
  }

  /** What a confirmation leaves in the database. */
  function Effects(row: Row, result: string): seq<Effect> {
    (if result == "" then [] else [Wrote(result)]) + [Acked(row)]
  }

  /** A confirmation and its result stay under the current token; under any other the result is rolled back with it. */
  lemma CommitExecuted(db: Db, row: Row, result: string, again: bool)
    ensures Executed(db, Commit(row, result), again) ==
      if Current(db, row) then db.(rows := db.rows[row.id := Closed(true)], log := db.log + Effects(row, result))
        else db
  {
    var batch := Commit(row, result);
    if result == "" {
      assert batch == [Ack(row.id, row.token)] && Effects(row, result) == [Acked(row)];
      AckRun(db, row, again);
    } else {
      assert batch[0] == Result(result) && batch[1..] == [Ack(row.id, row.token)];
      var wrote := db.(log := db.log + [Wrote(result)]);
      AckRun(wrote, row, again);
      assert Ran(db, batch, again) == Ran(wrote, batch[1..], again);
      assert db.log + [Wrote(result)] + [Acked(row)] == db.log + Effects(row, result);
    }
  }

  lemma AckRun(db: Db, row: Row, again: bool)
    ensures Ran(db, [Ack(row.id, row.token)], again) == if Current(db, row) then Some(Confirmed(db, row)) else None
  {
    assert [Ack(row.id, row.token)][1..] == [];
    assert Row(row.id, row.token) == row;
  }

  // ─── Steps ─────────────────────────────────────────────────────────────────

  predicate IsCommit(batch: Batch) {
    |batch| > 0 && batch[|batch| - 1].Ack?
  }

  predicate Enabled(s: System, a: Act) {
    match a
    case Wake(p, _) => p in s.subs
    case Subscribed(p, number, _) => p in s.subs && s.subs[p].number == 0 && number > 0
    case Forgotten(p, _) => p in s.subs && s.subs[p].number != 0 && !s.subs[p].stopped
    case Receive(p, row, _, _) => p in s.subs && s.net[Given(p, row)] > 0
    case Module(p, _) => p in s.subs
    case Deliver(p, batch, _) => s.net[Request(p, batch)] > 0
    case Grant(p, id, number) => s.net[Request(p, [Take(id, number)])] > 0 && id in s.db.rows
      && s.db.rows[id] == Waiting
    case Lose(msg) => s.net[msg] > 0
    case Repeat(_, batch) => (batch in s.sent || batch in s.own) && IsCommit(batch)
    case Own(p, _, _) => p in s.subs
    case Expire(id, _) => id in s.db.rows && s.db.rows[id].Taken?
    case Crash(p) => p in s.subs
    case Add(id) => id !in s.db.rows
  }

  /** A subscriber has moved and its batches are on their way. */
  function Moved(s: System, p: Pid, to: (Sub, seq<Batch>)): System {
    s.(subs := s.subs[p := to.0],
       net := s.net + multiset(seq(|to.1|, i requires 0 <= i < |to.1| => Request(p, to.1[i]))),
       sent := s.sent + to.1)
  }

  function Next(s: System, a: Act): System
    requires Enabled(s, a)
  {
    match a
    case Wake(p, id) => Moved(s, p, Woken(s.subs[p], id))
    case Subscribed(p, number, calls) => Moved(s, p, Numbered(s.subs[p], number, calls))
    case Forgotten(p, calls) => Moved(s, p, Forgot(s.subs[p], calls))
    case Receive(p, row, calls, throws) =>
      Moved(s.(net := s.net - multiset{Given(p, row)}), p, TookAndHandled(s.subs[p], row, calls, throws))
    case Module(p, call) => Moved(s, p, Called(s.subs[p], call))
    case Deliver(p, batch, again) => s.(net := s.net - multiset{Request(p, batch)}, db := Executed(s.db, batch, again))
    case Grant(p, id, number) =>
      var token := s.db.nextToken;
      s.(db := s.db.(rows := s.db.rows[id := RowState.Taken(token)], nextToken := token + 1),
         issued := s.issued[token := (id, p)],
           net := s.net - multiset{Request(p, [Take(id, number)])} + multiset{Given(p, Row(id, token))})
    case Lose(msg) => s.(net := s.net - multiset{msg})
    case Repeat(p, batch) => s.(net := s.net + multiset{Request(p, batch)})
    case Own(p, row, result) =>
      s.(net := s.net + multiset{Request(p, Commit(row, result))}, own := s.own + [Commit(row, result)])
    case Expire(id, again) => s.(db := s.db.(rows := s.db.rows[id := if again then Waiting else Closed(false)]))
    case Crash(p) => s.(subs := s.subs[p := FRESH])
    case Add(id) => s.(db := s.db.(rows := s.db.rows[id := Waiting]))
  }

  // ─── What every run keeps ──────────────────────────────────────────────────

  /** The subscriber the row was given to still has it. */
  predicate HeldBy(s: System, row: Row) {
    && row.token in s.issued && s.issued[row.token].0 == row.id && s.issued[row.token].1 in s.subs
    && Holds(s.subs[s.issued[row.token].1].taken, row)
  }

  /** Messages on their way with this row for the subscriber it was given to. */
  function OnTheWay(s: System, row: Row): nat {
    if row.token in s.issued then s.net[Given(s.issued[row.token].1, row)] else 0
  }

  predicate Issued(s: System, row: Row) {
    row.token in s.issued && s.issued[row.token].0 == row.id
  }

  /** A token is spent once: on its way, with the module, or settled by one statement of one subscriber. */
  ghost predicate TokensOk(s: System) {
    forall row ::
      OnTheWay(s, row) + (if HeldBy(s, row) then 1 else 0) + Settled(s.sent)[row] <= if Issued(s, row) then 1 else 0
  }

  /** Rows are only where they were given. */
  ghost predicate PlacesOk(s: System) {
    && (forall p, id :: p in s.subs && id in s.subs[p].taken ==>
          var row := s.subs[p].taken[id]; row.id == id && row.token in s.issued && s.issued[row.token] == (id, p))
    && (forall p, row :: s.net[Given(p, row)] > 0 ==> row.token in s.issued && s.issued[row.token] == (row.id, p))
    && (forall token :: token in s.issued ==> token < s.db.nextToken)
  }

  /**
   * A confirmation stands in the database only if it was sent, by a subscriber or a module, with the result
   * that stands before it.
   */
  ghost predicate SentOk(s: System) {
    && (forall p, batch :: s.net[Request(p, batch)] > 0 ==> batch in s.sent || batch in s.own)
    && (forall batch :: batch in s.sent || batch in s.own ==> Shaped(batch))
    && (forall i :: 0 <= i < |s.db.log| && s.db.log[i].Acked? ==>
          Commit(s.db.log[i].row, ResultAt(s.db.log, i)) in s.sent
          || Commit(s.db.log[i].row, ResultAt(s.db.log, i)) in s.own)
  }

  /** It neither confirms a row nor carries a result. */
  predicate Plain(batch: Batch) {
    forall k :: 0 <= k < |batch| ==> !batch[k].Ack? && !batch[k].Result?
  }

  /** A result goes out only in one batch with the confirmation of its row. */
  ghost predicate Shaped(batch: Batch) {
    Plain(batch) || exists row, result :: batch == Commit(row, result)
  }

  ghost predicate Sound(s: System) {
    DbOk(s.db) && PairedOk(s.db.log) && TokensOk(s) && PlacesOk(s) && SentOk(s)
  }

  // ── What one subscriber's move does to its rows ──

  /** A move settles only rows it lets go of, keeps no row it did not have, and sends batches of the right shape. */
  ghost predicate Balanced(u: Sub, to: (Sub, seq<Batch>), extra: Option<Row>) {
    && (forall row :: (if Holds(to.0.taken, row) then 1 else 0) + Settled(to.1)[row]
                      <= (if Holds(u.taken, row) then 1 else 0) + (if extra == Some(row) then 1 else 0))
    && (forall id :: id in to.0.taken ==>
          (id in u.taken && to.0.taken[id] == u.taken[id]) || extra == Some(to.0.taken[id]))
    && (forall batch :: batch in to.1 ==> Shaped(batch))
  }

  lemma NothingSettled()
    ensures Settled([]) == multiset{}
  {
  }

  lemma OneBatch(batch: Batch)
    ensures Settled([batch]) == SettledIn(batch)
  {
    SentOne([], batch);
    assert [] + [batch] == [batch];
  }

  lemma CompletedMoves(u: Sub, row: Row, result: string)
    requires Keyed(u.taken)
    ensures Balanced(u, Completed(u, row, result), None)
  {
    NothingSettled();
    OneBatch(Commit(row, result));
    CommitSettles(row, result);
  }

  lemma RefusedMoves(u: Sub, row: Row)
    requires Keyed(u.taken)
    ensures Balanced(u, Refused(u, row), None)
  {
    NothingSettled();
    OneBatch([Nack(row.id, row.token)]);
    OneStatement(Nack(row.id, row.token));
    assert Plain([Nack(row.id, row.token)]);
  }

  lemma PlainMoves(u: Sub, v: Sub, s: Stmt)
    requires v.taken == u.taken && Settles(s) == multiset{} && !s.Ack? && !s.Result?
    ensures Balanced(u, (v, [[s]]), None) && Balanced(u, (v, []), None)
  {
    NothingSettled();
    OneBatch([s]);
    OneStatement(s);
    assert Plain([s]);
  }

  lemma {:induction false} NacksPlain(taken: map<Id, Row>)
    ensures Plain(Nacks(taken))
    decreases |taken|
  {
    if taken != map[] {
      var id := Least(taken.Keys);
      Shrinks(taken, id);
      NacksPlain(taken - {id});
    }
  }

  lemma StopPlain(u: Sub)
    ensures Plain(StopBatch(u.number, u.taken))
  {
    NacksPlain(u.taken);
    hide Nacks;
  }

  lemma StoppedMoves(u: Sub)
    requires Keyed(u.taken)
    ensures Balanced(u, Stopped(u), None)
  {
    hide StopBatch, Settled, SettledIn;
    NothingSettled();
    OneBatch(StopBatch(u.number, u.taken));
    StopPlain(u);
    forall row: Row ensures SettledIn(StopBatch(u.number, u.taken))[row] == if Holds(u.taken, row) then 1 else 0 {
      StopSettles(u, row);
    }
    var to := Stopped(u);
    assert (u.stopped && u.number == 0) || to.0.taken == map[];
    assert forall batch :: batch in to.1 ==> batch == StopBatch(u.number, u.taken);
  }

  lemma CalledMoves(u: Sub, call: Call)
    requires Keyed(u.taken)
    ensures Balanced(u, Called(u, call), None)
  {
    hide Balanced, Completed, Refused, Drained, Stopped;
    match call
    case Complete(row, result) => CompletedMoves(u, row, result);
    case Refuse(row) => RefusedMoves(u, row);
    case Draining => DrainedMoves(u);
    case Stopping => StoppedMoves(u);
  }

  lemma DrainedMoves(u: Sub)
    ensures Balanced(u, Drained(u), None)
  {
    PlainMoves(u, Drained(u).0, Drain(u.number));
    hide Balanced;
  }

  lemma WokenMoves(u: Sub, id: Id)
    ensures Balanced(u, Woken(u, id), None)
  {
    PlainMoves(u, u, Take(id, u.number));
    hide Balanced;
  }

  lemma PlacedMoves(u: Sub, row: Row)
    requires Keyed(u.taken)
    ensures var v := if row.id in u.taken then u else u.(taken := u.taken[row.id := row]);
      Balanced(u, (v, []), Some(row)) && Keyed(v.taken)
  {
    NothingSettled();
    hide Settled;
  }

  /** After the stop the row is refused at once, and the subscriber is as it was; before it nothing is sent. */
  lemma TookMoves(u: Sub, row: Row)
    requires Keyed(u.taken)
    ensures Balanced(u, Took(u, row), Some(row))
    ensures !u.stopped ==> Took(u, row).1 == []
    ensures u.stopped && row.id !in u.taken ==> Took(u, row) == (u, [[Nack(row.id, row.token)]])
  {
    var v := if row.id in u.taken then u else u.(taken := u.taken[row.id := row]);
    assert row.id !in u.taken ==> v.taken - {row.id} == u.taken;
    hide Balanced;
    PlacedMoves(u, row);
    if v.stopped {
      RefusedMoves(v, row);
      ThenMoves(u, (v, []), Refused(v, row), Some(row));
      assert [] + Refused(v, row).1 == Refused(v, row).1;
    }
  }

  /** One move after another is a move. */
  lemma ThenMoves(u: Sub, one: (Sub, seq<Batch>), two: (Sub, seq<Batch>), extra: Option<Row>)
    requires Balanced(u, one, extra) && Balanced(one.0, two, None)
    ensures Balanced(u, (two.0, one.1 + two.1), extra)
  {
    SettledAdds(one.1, two.1);
    hide Settled, Shaped, Holds;
  }

  lemma MovesKeyed(u: Sub, to: (Sub, seq<Batch>))
    requires Keyed(u.taken) && Balanced(u, to, None)
    ensures Keyed(to.0.taken)
  {
    hide Settled, Shaped;
  }

  lemma StillMoves(u: Sub)
    ensures Balanced(u, (u, []), None)
  {
    NothingSettled();
  }

  lemma {:induction false} HandledMoves(u: Sub, calls: seq<Call>)
    requires Keyed(u.taken)
    ensures Balanced(u, Handled(u, calls), None)
    decreases |calls|
  {
    hide Balanced, Called;
    if calls == [] {
      StillMoves(u);
    } else {
      CalledMoves(u, calls[0]);
      var one := Called(u, calls[0]);
      MovesKeyed(u, one);
      HandledMoves(one.0, calls[1..]);
      ThenMoves(u, one, Handled(one.0, calls[1..]), None);
    }
  }

  /** A number by itself moves no row. */
  lemma NumberMoves(u: Sub, number: nat, to: (Sub, seq<Batch>))
    requires Balanced(u.(number := number), to, None)
    ensures Balanced(u, to, None)
  {
    hide Settled, Shaped;
  }

  lemma NumberedMoves(u: Sub, n: nat, calls: seq<Call>)
    requires Keyed(u.taken)
    ensures Balanced(u, Numbered(u, n, calls), None)
  {
    hide Balanced, Handled, Stopped;
    var v := u.(number := n);
    if u.stopped {
      StoppedMoves(v);
      NumberMoves(u, n, Stopped(v));
    } else {
      PlainMoves(v, v, Stmt.Drain(n));
      HandledMoves(v, calls);
      ThenMoves(v, (v, if u.draining then [[Stmt.Drain(n)]] else []), Handled(v, calls), None);
      NumberMoves(u, n, Numbered(u, n, calls));
    }
  }

  lemma ForgotMoves(u: Sub, calls: seq<Call>)
    requires Keyed(u.taken)
    ensures Balanced(u, Forgot(u, calls), None)
  {
    hide Balanced, Handled;
    var v := u.(number := 0);
    HandledMoves(v, calls);
    var one := Handled(v, calls);
    PlainMoves(one.0, one.0, Subscribe);
    ThenMoves(v, one, (one.0, if one.0.draining || one.0.stopped then [] else [[Subscribe]]), None);
    NumberMoves(u, 0, Forgot(u, calls));
  }

  lemma TookKeyed(u: Sub, row: Row)
    requires Keyed(u.taken)
    ensures Keyed(Took(u, row).0.taken)
  {
  }

  lemma TookAndHandledMoves(u: Sub, row: Row, calls: seq<Call>, throws: bool)
    requires Keyed(u.taken)
    ensures Balanced(u, TookAndHandled(u, row, calls, throws), Some(row))
    ensures Keyed(TookAndHandled(u, row, calls, throws).0.taken)
  {
    TookMoves(u, row);
    TookKeyed(u, row);
    hide Balanced, Took, Handled, Refused, Keyed;
    if !u.stopped {
      var one := Took(u, row);
      HandledMoves(one.0, calls);
      var two := Handled(one.0, calls);
      MovesKeyed(one.0, two);
      ThenMoves(u, one, two, Some(row));
      if throws {
        RefusedMoves(two.0, row);
        var three := Refused(two.0, row);
        MovesKeyed(two.0, three);
        ThenMoves(u, (two.0, one.1 + two.1), three, Some(row));
      } else {
        assert one.1 + two.1 + [] == one.1 + two.1;
      }
    }
  }

  lemma {:induction false} SettledAdds(a: seq<Batch>, b: seq<Batch>)
    ensures Settled(a + b) == Settled(a) + Settled(b)
  {
    hide SettledIn;
    if b == [] {
      assert a + b == a;
    } else {
      SettledAdds(a, b[..|b| - 1]);
      assert (a + b)[..|a + b| - 1] == a + b[..|b| - 1];
    }
  }

  /** Posting requests leaves the answers on their way as they are. */
  lemma PostedKeepsGiven(net: multiset<Msg>, p: Pid, batches: seq<Batch>, q: Pid, row: Row)
    ensures (net + multiset(seq(|batches|, i requires 0 <= i < |batches| => Request(p, batches[i]))))[Given(q, row)]
            == net[Given(q, row)]
  {
    assert Given(q, row) !in seq(|batches|, i requires 0 <= i < |batches| => Request(p, batches[i]));
  }

  /** The tokens' balance, with the row of an answer that has just been taken off the net still to be placed. */
  ghost predicate TokensOwing(s: System, extra: Option<Row>) {
    forall row ::
      OnTheWay(s, row) + (if HeldBy(s, row) then 1 else 0) + Settled(s.sent)[row]
        + (if extra == Some(row) then 1 else 0)
      <= if Issued(s, row) then 1 else 0
  }

  lemma MovedPlaces(s: System, p: Pid, to: (Sub, seq<Batch>), extra: Option<Row>)
    requires PlacesOk(s) && p in s.subs && Balanced(s.subs[p], to, extra)
    requires extra.Some? ==> extra.value.token in s.issued && s.issued[extra.value.token] == (extra.value.id, p)
    requires Keyed(to.0.taken)
    ensures PlacesOk(Moved(s, p, to))
  {
    hide Settled;
    forall q: Pid, row: Row ensures Moved(s, p, to).net[Given(q, row)] == s.net[Given(q, row)] {
      PostedKeepsGiven(s.net, p, to.1, q, row);
    }
  }

  lemma MovedRow(s: System, p: Pid, to: (Sub, seq<Batch>), extra: Option<Row>, row: Row)
    requires PlacesOk(s) && TokensOwing(s, extra) && p in s.subs && Balanced(s.subs[p], to, extra)
    requires extra.Some? ==> extra.value.token in s.issued && s.issued[extra.value.token] == (extra.value.id, p)
    ensures var t := Moved(s, p, to);
      OnTheWay(t, row) + (if HeldBy(t, row) then 1 else 0) + Settled(t.sent)[row] <= if Issued(t, row) then 1 else 0
  {
    hide Settled, Shaped;
    var t := Moved(s, p, to);
    SettledAdds(s.sent, to.1);
    if row.token in s.issued { PostedKeepsGiven(s.net, p, to.1, s.issued[row.token].1, row); }
    if !(row.token in s.issued && s.issued[row.token] == (row.id, p)) {
      assert !Holds(s.subs[p].taken, row) && extra != Some(row);
      assert Settled(to.1)[row] == 0;
      assert HeldBy(t, row) == HeldBy(s, row);
    }
  }

  lemma MovedTokens(s: System, p: Pid, to: (Sub, seq<Batch>), extra: Option<Row>)
    requires PlacesOk(s) && TokensOwing(s, extra) && p in s.subs && Balanced(s.subs[p], to, extra) && Keyed(to.0.taken)
    requires extra.Some? ==> extra.value.token in s.issued && s.issued[extra.value.token] == (extra.value.id, p)
    ensures TokensOk(Moved(s, p, to)) && PlacesOk(Moved(s, p, to))
  {
    MovedPlaces(s, p, to, extra);
    forall row: Row
      ensures var t := Moved(s, p, to);
        OnTheWay(t, row) + (if HeldBy(t, row) then 1 else 0) + Settled(t.sent)[row] <= if Issued(t, row) then 1 else 0
    {
      MovedRow(s, p, to, extra, row);
    }
  }

  lemma MovedSent(s: System, p: Pid, to: (Sub, seq<Batch>), extra: Option<Row>)
    requires SentOk(s) && p in s.subs && Balanced(s.subs[p], to, extra)
    ensures SentOk(Moved(s, p, to))
  {
    var t := Moved(s, p, to);
    var msgs := seq(|to.1|, i requires 0 <= i < |to.1| => Request(p, to.1[i]));
    forall q, batch | t.net[Request(q, batch)] > 0 ensures batch in t.sent || batch in t.own {
      if s.net[Request(q, batch)] == 0 {
        assert Request(q, batch) in msgs;
      }
    }
  }

  // ── Each step keeps it ──

  lemma KeyedAt(s: System, p: Pid)
    requires PlacesOk(s) && p in s.subs
    ensures Keyed(s.subs[p].taken)
  {
  }

  lemma SubStep(s: System, p: Pid, to: (Sub, seq<Batch>))
    requires Sound(s) && p in s.subs && Balanced(s.subs[p], to, None)
    ensures Sound(Moved(s, p, to)) && Moved(s, p, to).db == s.db
  {
    assert TokensOwing(s, None);
    KeyedAt(s, p);
    MovesKeyed(s.subs[p], to);
    hide TokensOk, PlacesOk, SentOk, Balanced, DbOk, TokensOwing;
    MovedTokens(s, p, to, None);
    MovedSent(s, p, to, None);
  }

  /** The answer is off the net and its row not yet placed: the rest is as it was. */
  lemma OffTheNet(s: System, p: Pid, row: Row)
    requires Sound(s) && s.net[Given(p, row)] > 0
    ensures var u := s.(net := s.net - multiset{Given(p, row)});
      PlacesOk(u) && SentOk(u) && TokensOwing(u, Some(row)) && row.token in u.issued
        && u.issued[row.token] == (row.id, p)
  {
    hide Settled, Shaped;
    var u := s.(net := s.net - multiset{Given(p, row)});
    forall r: Row
      ensures OnTheWay(u, r) + (if HeldBy(u, r) then 1 else 0) + Settled(u.sent)[r] + (if r == row then 1 else 0)
              <= if Issued(u, r) then 1 else 0
    {
      assert OnTheWay(s, r) + (if HeldBy(s, r) then 1 else 0) + Settled(s.sent)[r] <= if Issued(s, r) then 1 else 0;
    }
  }

  lemma ReceiveStep(s: System, p: Pid, row: Row, calls: seq<Call>, throws: bool)
    requires Sound(s) && p in s.subs && s.net[Given(p, row)] > 0
    ensures var t := Moved(s.(net := s.net - multiset{Given(p, row)}), p,
                           TookAndHandled(s.subs[p], row, calls, throws));
      Sound(t) && t.db == s.db
  {
    var u := s.(net := s.net - multiset{Given(p, row)});
    OffTheNet(s, p, row);
    KeyedAt(s, p);
    hide TokensOk, PlacesOk, SentOk, Balanced, DbOk, PairedOk, TokensOwing, TookAndHandled, Keyed;
    TookAndHandledMoves(s.subs[p], row, calls, throws);
    MovedTokens(u, p, TookAndHandled(s.subs[p], row, calls, throws), Some(row));
    MovedSent(u, p, TookAndHandled(s.subs[p], row, calls, throws), Some(row));
  }

  lemma {:induction false} RanPlain(db: Db, batch: Batch, again: bool)
    requires Plain(batch)
    ensures Ran(db, batch, again).Some? && Ran(db, batch, again).value.log == db.log
    decreases |batch|
  {
    if batch != [] {
      assert Plain(batch[1..]);
      match batch[0]
      case Nack(id, token) => RanPlain(Refuse1(db, Row(id, token), again), batch[1..], again);
      case Subscribe => RanPlain(db, batch[1..], again);
      case Heartbeat(_) => RanPlain(db, batch[1..], again);
      case Take(_, _) => RanPlain(db, batch[1..], again);
      case Drain(_) => RanPlain(db, batch[1..], again);
      case Unsubscribe(_) => RanPlain(db, batch[1..], again);
    }
  }

  lemma {:induction false} RanTokens(db: Db, batch: Batch, again: bool)
    ensures Ran(db, batch, again).Some? ==> Ran(db, batch, again).value.nextToken == db.nextToken
    decreases |batch|
  {
    if batch != [] {
      match batch[0]
      case Result(sql) => RanTokens(db.(log := db.log + [Wrote(sql)]), batch[1..], again);
      case Ack(id, token) => RanTokens(Confirmed(db, Row(id, token)), batch[1..], again);
      case Nack(id, token) => RanTokens(Refuse1(db, Row(id, token), again), batch[1..], again);
      case _ => RanTokens(db, batch[1..], again);
    }
  }

  /** Of the batches that are sent, only a confirmation leaves anything: its result, if it has one, and then itself. */
  lemma ExecutedWrites(db: Db, batch: Batch, again: bool)
    requires Shaped(batch)
    ensures var after := Executed(db, batch, again);
      || after.log == db.log
      || (exists row, result ::
            batch == Commit(row, result) && Current(db, row) && after.log == db.log + Effects(row, result))
  {
    if Plain(batch) {
      RanPlain(db, batch, again);
    } else {
      var row, result :| batch == Commit(row, result);
      CommitExecuted(db, row, result, again);
    }
  }

  lemma EffectsPaired(log: seq<Effect>, row: Row, result: string)
    requires PairedOk(log)
    ensures PairedOk(log + Effects(row, result))
  {
  }

  /** The new confirmation stands with its result, the older ones with theirs. */
  lemma EffectsStand(log: seq<Effect>, row: Row, result: string, i: nat)
    requires PairedOk(log) && i < |log + Effects(row, result)| && (log + Effects(row, result))[i].Acked?
    ensures if i < |log| then log[i].Acked? && log[i] == (log + Effects(row, result))[i]
                           && ResultAt(log + Effects(row, result), i) == ResultAt(log, i)
            else (log + Effects(row, result))[i] == Acked(row) && ResultAt(log + Effects(row, result), i) == result
  {
  }

  /** Nothing new is given out, held or sent: the balance and the places stay. */
  lemma NothingNew(s: System, t: System)
    requires TokensOk(s) && PlacesOk(s) && t.issued == s.issued && t.sent == s.sent && t.db.nextToken == s.db.nextToken
    requires forall q, row :: t.net[Given(q, row)] <= s.net[Given(q, row)]
    requires forall p :: p in t.subs ==> p in s.subs && (t.subs[p] == s.subs[p] || t.subs[p].taken == map[])
    ensures TokensOk(t) && PlacesOk(t)
  {
    hide Settled;
    forall row: Row
      ensures OnTheWay(t, row) + (if HeldBy(t, row) then 1 else 0) + Settled(t.sent)[row]
              <= if Issued(t, row) then 1 else 0
    {
      assert OnTheWay(t, row) <= OnTheWay(s, row) && (HeldBy(t, row) ==> HeldBy(s, row))
        && Issued(t, row) == Issued(s, row);
    }
  }

  lemma DeliverSent(s: System, p: Pid, batch: Batch, again: bool)
    requires SentOk(s) && PairedOk(s.db.log) && s.net[Request(p, batch)] > 0
    ensures SentOk(Next(s, Deliver(p, batch, again))) && PairedOk(Next(s, Deliver(p, batch, again)).db.log)
  {
    ExecutedWrites(s.db, batch, again);
    hide Executed, Shaped, Effects, PairedOk, Commit, ResultAt;
    var t := Next(s, Deliver(p, batch, again));
    if t.db.log != s.db.log {
      var row, result :| batch == Commit(row, result) && Current(s.db, row)
        && t.db.log == s.db.log + Effects(row, result);
      EffectsPaired(s.db.log, row, result);
      forall i | 0 <= i < |t.db.log| && t.db.log[i].Acked?
        ensures Commit(t.db.log[i].row, ResultAt(t.db.log, i)) in t.sent
             || Commit(t.db.log[i].row, ResultAt(t.db.log, i)) in t.own
      {
        EffectsStand(s.db.log, row, result, i);
      }
    }
  }

  lemma DeliverStep(s: System, p: Pid, batch: Batch, again: bool)
    requires Sound(s) && s.net[Request(p, batch)] > 0
    ensures Sound(Next(s, Deliver(p, batch, again)))
  {
    ExecutedOk(s.db, batch, again);
    RanTokens(s.db, batch, again);
    assert Executed(s.db, batch, again).nextToken == s.db.nextToken;
    DeliverSent(s, p, batch, again);
    hide Executed, DbOk, PairedOk, TokensOk, PlacesOk, SentOk;
    NothingNew(s, Next(s, Deliver(p, batch, again)));
  }

  /** The new token is nowhere yet. */
  lemma NewToken(s: System, row: Row)
    requires PlacesOk(s) && TokensOk(s) && row.token == s.db.nextToken
    ensures row.token !in s.issued && Settled(s.sent)[row] == 0
    ensures forall q :: s.net[Given(q, row)] == 0
    ensures forall q :: q in s.subs ==> !Holds(s.subs[q].taken, row)
  {
    assert OnTheWay(s, row) + (if HeldBy(s, row) then 1 else 0) + Settled(s.sent)[row]
           <= if Issued(s, row) then 1 else 0;
  }

  lemma GrantDb(db: Db, id: Id)
    requires DbOk(db) && id in db.rows && db.rows[id] == Waiting
    ensures DbOk(db.(rows := db.rows[id := RowState.Taken(db.nextToken)], nextToken := db.nextToken + 1))
  {
  }

  lemma GrantPlaces(s: System, p: Pid, id: Id, number: nat)
    requires PlacesOk(s) && SentOk(s) && Enabled(s, Grant(p, id, number))
    ensures PlacesOk(Next(s, Grant(p, id, number))) && SentOk(Next(s, Grant(p, id, number)))
  {
    hide Settled, Shaped;
    var t := Next(s, Grant(p, id, number));
    assert s.db.nextToken !in s.issued;
    assert forall q, row :: t.net[Given(q, row)] > 0 ==>
      s.net[Given(q, row)] > 0 || (q == p && row == Row(id, s.db.nextToken));
  }

  lemma GrantRow(s: System, p: Pid, id: Id, number: nat, row: Row)
    requires TokensOk(s) && PlacesOk(s) && Enabled(s, Grant(p, id, number))
    ensures var t := Next(s, Grant(p, id, number));
      OnTheWay(t, row) + (if HeldBy(t, row) then 1 else 0) + Settled(t.sent)[row] <= if Issued(t, row) then 1 else 0
  {
    hide Settled;
    var t := Next(s, Grant(p, id, number));
    var given := Row(id, s.db.nextToken);
    if row.token == given.token {
      NewToken(s, row);
      hide TokensOk, PlacesOk;
      assert t.net[Given(p, row)] == if row == given then 1 else 0;
    } else {
      hide PlacesOk;
      assert OnTheWay(t, row) == OnTheWay(s, row) && HeldBy(t, row) == HeldBy(s, row)
        && Issued(t, row) == Issued(s, row);
    }
  }

  lemma GrantStep(s: System, p: Pid, id: Id, number: nat)
    requires Sound(s) && Enabled(s, Grant(p, id, number))
    ensures Sound(Next(s, Grant(p, id, number)))
  {
    GrantDb(s.db, id);
    GrantPlaces(s, p, id, number);
    hide Settled, SentOk, DbOk, PlacesOk;
    forall row: Row
      ensures var t := Next(s, Grant(p, id, number));
        OnTheWay(t, row) + (if HeldBy(t, row) then 1 else 0) + Settled(t.sent)[row] <= if Issued(t, row) then 1 else 0
    {
      GrantRow(s, p, id, number, row);
    }
    hide OnTheWay, HeldBy, Issued;
  }

  lemma WorldSent(s: System, a: Act)
    requires SentOk(s) && Enabled(s, a) && (a.Lose? || a.Repeat? || a.Own? || a.Expire? || a.Crash? || a.Add?)
    ensures SentOk(Next(s, a))
  {
    hide Settled, Shaped, ResultAt, Commit;
    if a.Own? { OwnShaped(a.row, a.result); }
  }

  lemma OwnShaped(row: Row, result: string)
    ensures Shaped(Commit(row, result))
  {
  }

  /** Messages lost or repeated, leases that run out, crashes, new rows. */
  lemma WorldStep(s: System, a: Act)
    requires Sound(s) && Enabled(s, a) && (a.Lose? || a.Repeat? || a.Own? || a.Expire? || a.Crash? || a.Add?)
    ensures Sound(Next(s, a)) && Next(s, a).db.log == s.db.log
  {
    assert DbOk(Next(s, a).db);
    WorldSent(s, a);
    hide DbOk, TokensOk, PlacesOk, SentOk;
    NothingNew(s, Next(s, a));
  }

  lemma StepSound(s: System, a: Act)
    requires Sound(s) && Enabled(s, a)
    ensures Sound(Next(s, a)) && s.db.log <= Next(s, a).db.log
  {
    match a
    case Wake(p, id) => hide Sound; WakeStep(s, p, id);
    case Subscribed(p, number, calls) => hide Sound; SubscribedStep(s, p, number, calls);
    case Forgotten(p, calls) => hide Sound; ForgottenStep(s, p, calls);
    case Module(p, call) => hide Sound; ModuleStep(s, p, call);
    case Receive(p, row, calls, throws) => hide Sound; ReceiveStep(s, p, row, calls, throws);
    case Deliver(p, batch, again) =>
      ExecutedOk(s.db, batch, again);
      hide Sound, Executed;
      DeliverStep(s, p, batch, again);
    case Grant(p, id, number) => hide Sound; GrantStep(s, p, id, number);
    case _ => hide Sound; WorldStep(s, a);
  }

  lemma WakeStep(s: System, p: Pid, id: Id)
    requires Sound(s) && p in s.subs
    ensures Sound(Moved(s, p, Woken(s.subs[p], id))) && Moved(s, p, Woken(s.subs[p], id)).db == s.db
  {
    hide Sound, Balanced, Woken, Moved;
    WokenMoves(s.subs[p], id);
    SubStep(s, p, Woken(s.subs[p], id));
  }

  lemma SubscribedStep(s: System, p: Pid, number: nat, calls: seq<Call>)
    requires Sound(s) && p in s.subs
    ensures Sound(Moved(s, p, Numbered(s.subs[p], number, calls)))
    ensures Moved(s, p, Numbered(s.subs[p], number, calls)).db == s.db
  {
    KeyedAt(s, p);
    hide Sound, Balanced, Numbered, Moved;
    NumberedMoves(s.subs[p], number, calls);
    SubStep(s, p, Numbered(s.subs[p], number, calls));
  }

  lemma ForgottenStep(s: System, p: Pid, calls: seq<Call>)
    requires Sound(s) && p in s.subs
    ensures Sound(Moved(s, p, Forgot(s.subs[p], calls))) && Moved(s, p, Forgot(s.subs[p], calls)).db == s.db
  {
    KeyedAt(s, p);
    hide Sound, Balanced, Forgot, Moved;
    ForgotMoves(s.subs[p], calls);
    SubStep(s, p, Forgot(s.subs[p], calls));
  }

  lemma ModuleStep(s: System, p: Pid, call: Call)
    requires Sound(s) && p in s.subs
    ensures Sound(Moved(s, p, Called(s.subs[p], call))) && Moved(s, p, Called(s.subs[p], call)).db == s.db
  {
    KeyedAt(s, p);
    hide Sound, Balanced, Called, Moved;
    CalledMoves(s.subs[p], call);
    SubStep(s, p, Called(s.subs[p], call));
  }

  // ─── Runs ──────────────────────────────────────────────────────────────────

  ghost predicate Runs(s: System, run: seq<Act>, t: System)
    decreases |run|
  {
    if run == [] then s == t else Enabled(s, run[0]) && Runs(Next(s, run[0]), run[1..], t)
  }

  /** Subscribers that have taken nothing yet, over rows that wait or were closed without a result. */
  ghost predicate Init(s: System) {
    && s.db.log == [] && s.net == multiset{} && s.issued == map[] && s.sent == [] && s.own == []
    && (forall id :: id in s.db.rows ==> s.db.rows[id] == Waiting || s.db.rows[id] == Closed(false))
    && (forall p :: p in s.subs ==> s.subs[p] == FRESH)
  }

  lemma InitSound(s: System)
    requires Init(s)
    ensures Sound(s)
  {
  }

  lemma {:induction false} RunSound(s: System, run: seq<Act>, t: System)
    requires Sound(s) && Runs(s, run, t)
    ensures Sound(t) && s.db.log <= t.db.log
    decreases |run|
  {
    if run != [] {
      hide Sound, Next, Enabled;
      StepSound(s, run[0]);
      RunSound(Next(s, run[0]), run[1..], t);
    }
  }

  /**
   * A row is confirmed once at most, and exactly when it is closed as done. Every result executed stands
   * directly before the confirmation it was sent with, so a row has one result at most, and none unless it is done.
   */
  lemma OneResult(s: System, run: seq<Act>, t: System, id: Id)
    requires Init(s) && Runs(s, run, t)
    ensures forall i, j :: 0 <= i < j < |t.db.log| && t.db.log[i].Acked? && t.db.log[j].Acked? ==>
      t.db.log[i].row.id != t.db.log[j].row.id
    ensures (id in t.db.rows && t.db.rows[id] == Closed(true)) <==>
            (exists i :: 0 <= i < |t.db.log| && t.db.log[i].Acked? && t.db.log[i].row.id == id)
    ensures forall k :: 0 <= k < |t.db.log| && t.db.log[k].Wrote? ==> k + 1 < |t.db.log| && t.db.log[k + 1].Acked?
    ensures forall j, k :: 0 <= j < k < |t.db.log| && t.db.log[j].Wrote? && t.db.log[k].Wrote? ==>
      t.db.log[j + 1].row.id != t.db.log[k + 1].row.id
  {
    InitSound(s);
    RunSound(s, run, t);
    hide TokensOk, PlacesOk, SentOk, Runs;
  }

  // ── A run in which two subscribers confirm the same row ──

  lemma {:induction false} RunsThen(s: System, one: seq<Act>, t: System, two: seq<Act>, u: System)
    requires Runs(s, one, t) && Runs(t, two, u)
    ensures Runs(s, one + two, u)
    decreases |one|
  {
    hide Next, Enabled;
    if one == [] {
      assert one + two == two;
    } else {
      RunsThen(Next(s, one[0]), one[1..], t, two, u);
      assert (one + two)[0] == one[0] && (one + two)[1..] == one[1..] + two;
    }
  }

  lemma OneAct(s: System, a: Act)
    requires Enabled(s, a)
    ensures Runs(s, [a], Next(s, a))
  {
    hide Next, Enabled;
    assert Runs(Next(s, a), [a][1..], Next(s, a));
  }

  lemma MovedOne(s: System, p: Pid, u: Sub, batch: Batch)
    ensures Moved(s, p, (u, [batch])) ==
      s.(subs := s.subs[p := u], net := s.net + multiset{Request(p, batch)}, sent := s.sent + [batch])
  {
    assert seq(|[batch]|, i requires 0 <= i < |[batch]| => Request(p, [batch][i])) == [Request(p, batch)];
  }

  lemma MovedSilently(s: System, p: Pid, u: Sub)
    ensures Moved(s, p, (u, [])) == s.(subs := s.subs[p := u])
  {
    var none: seq<Batch> := [];
    assert seq(|none|, i requires 0 <= i < |none| => Request(p, none[i])) == [];
    assert s.net + multiset([]) == s.net;
  }

  /** A fresh subscriber is answered its number. */
  lemma NumberRun(s: System, p: Pid, n: nat)
    requires p in s.subs && s.subs[p] == FRESH && n > 0
    ensures Runs(s, [Subscribed(p, n, [])], s.(subs := s.subs[p := FRESH.(number := n)]))
  {
    hide Runs;
    OneAct(s, Subscribed(p, n, []));
    assert Numbered(FRESH, n, []) == (FRESH.(number := n), []);
    MovedSilently(s, p, FRESH.(number := n));
  }

  /** A waiting row's wake is heard, and the take is on its way. */
  lemma WakeRun(s: System, p: Pid, id: Id)
    requires p in s.subs && s.subs[p].number > 0 && !s.subs[p].draining && !s.subs[p].stopped && id !in s.subs[p].taken
    ensures var take := [Take(id, s.subs[p].number)];
      Runs(s, [Wake(p, id)], s.(net := s.net + multiset{Request(p, take)}, sent := s.sent + [take]))
  {
    hide Runs;
    OneAct(s, Wake(p, id));
    MovedOne(s, p, s.subs[p], [Take(id, s.subs[p].number)]);
    assert s.subs[p := s.subs[p]] == s.subs;
  }

  /** The row is taken: the answer sets out under a new token. */
  lemma TakeRun(s: System, p: Pid, id: Id)
    requires p in s.subs && id in s.db.rows && s.db.rows[id] == Waiting
    requires s.subs[p].number > 0 && !s.subs[p].draining && !s.subs[p].stopped && id !in s.subs[p].taken
    ensures var token, n := s.db.nextToken, s.subs[p].number;
      Runs(s, [Wake(p, id)] + [Grant(p, id, n)],
           s.(db := s.db.(rows := s.db.rows[id := RowState.Taken(token)], nextToken := token + 1),
              issued := s.issued[token := (id, p)], net := s.net + multiset{Given(p, Row(id, token))},
              sent := s.sent + [[Take(id, n)]]))
  {
    hide Runs, Woken;
    var take := [Take(id, s.subs[p].number)];
    WakeRun(s, p, id);
    var t := s.(net := s.net + multiset{Request(p, take)}, sent := s.sent + [take]);
    assert t.net - multiset{Request(p, take)} == s.net;
    var a := Grant(p, id, s.subs[p].number);
    OneAct(t, a);
    var u := Next(t, a);
    hide Next, Enabled;
    RunsThen(s, [Wake(p, id)], t, [a], u);
  }

  lemma HandledOne(u: Sub, call: Call)
    ensures Handled(u, [call]) == Called(u, call)
  {
    hide Called;
    var calls := [call];
    var (v, b) := Called(u, call);
    assert calls[1..] == [] && b + [] == b;
    assert Handled(v, calls[1..]) == (v, []);
  }

  lemma ConfirmMove(u: Sub, row: Row, result: string)
    requires !u.stopped && row.id !in u.taken
    ensures TookAndHandled(u, row, [Complete(row, result)], false) == (u, [Commit(row, result)])
  {
    hide Commit;
    var v := u.(taken := u.taken[row.id := row]);
    assert Took(u, row) == (v, []);
    assert v.taken - {row.id} == u.taken;
    assert Called(v, Complete(row, result)) == (u, [Commit(row, result)]);
    HandledOne(v, Complete(row, result));
    hide Took, Called, Handled, Refused;
    var sent: seq<Batch> := [Commit(row, result)];
    assert [] + sent + [] == sent;
  }

  /** The row arrives and its handler completes it: the confirmation sets out. */
  lemma ConfirmRun(s: System, p: Pid, row: Row, result: string)
    requires p in s.subs && !s.subs[p].stopped && row.id !in s.subs[p].taken && s.net[Given(p, row)] > 0
    ensures Runs(s, [Receive(p, row, [Complete(row, result)], false)],
                 s.(net := s.net - multiset{Given(p, row)} + multiset{Request(p, Commit(row, result))},
                    sent := s.sent + [Commit(row, result)]))
  {
    hide Runs, Commit, TookAndHandled;
    var u, a := s.subs[p], Receive(p, row, [Complete(row, result)], false);
    ConfirmMove(u, row, result);
    OneAct(s, a);
    MovedOne(s.(net := s.net - multiset{Given(p, row)}), p, u, Commit(row, result));
    hide Moved;
    assert s.subs[p := u] == s.subs;
  }

  lemma DeliverRun(s: System, p: Pid, row: Row, result: string)
    requires s.net[Request(p, Commit(row, result))] > 0
    ensures Runs(s, [Deliver(p, Commit(row, result), false)],
                 s.(net := s.net - multiset{Request(p, Commit(row, result))},
                    db := if Current(s.db, row)
                          then s.db.(rows := s.db.rows[row.id := Closed(true)],
                                     log := s.db.log + Effects(row, result)) else s.db))
  {
    hide Runs;
    OneAct(s, Deliver(p, Commit(row, result), false));
    CommitExecuted(s.db, row, result, false);
  }

  /** Two subscribers have numbers and the row is in the queue. */
  lemma NumbersRun(s: System, id: Id, p: Pid, q: Pid) returns (run: seq<Act>, t: System)
    requires Init(s) && id !in s.db.rows && p in s.subs && q in s.subs && p != q
    ensures Runs(s, run, t)
    ensures t == s.(db := s.db.(rows := s.db.rows[id := Waiting]),
                    subs := s.subs[p := FRESH.(number := 1)][q := FRESH.(number := 2)])
  {
    assert s.subs[p] == FRESH && s.subs[q] == FRESH;
    hide Runs, Init;
    OneAct(s, Act.Add(id));
    var u := Next(s, Act.Add(id));
    NumberRun(u, p, 1);
    var v := u.(subs := u.subs[p := FRESH.(number := 1)]);
    RunsThen(s, [Act.Add(id)], u, [Subscribed(p, 1, [])], v);
    NumberRun(v, q, 2);
    run, t := [Act.Add(id)] + [Subscribed(p, 1, [])] + [Subscribed(q, 2, [])],
      v.(subs := v.subs[q := FRESH.(number := 2)]);
    RunsThen(s, [Act.Add(id)] + [Subscribed(p, 1, [])], v, [Subscribed(q, 2, [])], t);
  }

  /** The row is taken, its lease runs out, and it is taken again by another: the first answer is still on its way. */
  lemma TakenTwice(s: System, id: Id, p: Pid, q: Pid) returns (run: seq<Act>, t: System)
    requires id in s.db.rows && s.db.rows[id] == Waiting && s.net == multiset{} && s.db.log == [] && p != q
    requires p in s.subs && q in s.subs && s.subs[p] == FRESH.(number := 1) && s.subs[q] == FRESH.(number := 2)
    ensures Runs(s, run, t) && t.subs == s.subs && t.db.log == []
    ensures t.db.rows == s.db.rows[id := RowState.Taken(s.db.nextToken + 1)]
    ensures t.net == multiset{Given(p, Row(id, s.db.nextToken)), Given(q, Row(id, s.db.nextToken + 1))}
  {
    hide Runs;
    TakeRun(s, p, id);
    var token := s.db.nextToken;
    var u := s.(db := s.db.(rows := s.db.rows[id := RowState.Taken(token)], nextToken := token + 1),
                issued := s.issued[token := (id, p)], net := s.net + multiset{Given(p, Row(id, token))},
                sent := s.sent + [[Take(id, 1)]]);
    OneAct(u, Expire(id, true));
    var v := Next(u, Expire(id, true));
    run := [Wake(p, id)] + [Grant(p, id, 1)] + [Expire(id, true)];
    TakeRun(v, q, id);
    hide Next, Enabled;
    RunsThen(s, [Wake(p, id)] + [Grant(p, id, 1)], u, [Expire(id, true)], v);
    t := v.(db := v.db.(rows := v.db.rows[id := RowState.Taken(token + 1)], nextToken := token + 2),
            issued := v.issued[token + 1 := (id, q)], net := v.net + multiset{Given(q, Row(id, token + 1))},
            sent := v.sent + [[Take(id, 2)]]);
    RunsThen(s, run, v, [Wake(q, id)] + [Grant(q, id, 2)], t);
    run := run + ([Wake(q, id)] + [Grant(q, id, 2)]);
  }

  /** Both handlers complete the row. */
  lemma BothConfirm(s: System, p: Pid, q: Pid, first: Row, second: Row, late: string,
                    inTime: string) returns (run: seq<Act>, t: System)
    requires first.id == second.id && p != q && s.net == multiset{Given(p, first), Given(q, second)}
    requires p in s.subs && q in s.subs && s.subs[p] == FRESH.(number := 1) && s.subs[q] == FRESH.(number := 2)
    ensures Runs(s, run, t) && t.db == s.db
    ensures t.net == multiset{Request(p, Commit(first, late)), Request(q, Commit(second, inTime))}
    ensures t.sent == s.sent + [Commit(first, late)] + [Commit(second, inTime)]
  {
    hide Runs, Commit;
    ConfirmRun(s, p, first, late);
    var u := s.(net := s.net - multiset{Given(p, first)} + multiset{Request(p, Commit(first, late))},
                sent := s.sent + [Commit(first, late)]);
    var a := Receive(p, first, [Complete(first, late)], false);
    ConfirmRun(u, q, second, inTime);
    t := u.(net := u.net - multiset{Given(q, second)} + multiset{Request(q, Commit(second, inTime))},
            sent := u.sent + [Commit(second, inTime)]);
    var b := Receive(q, second, [Complete(second, inTime)], false);
    RunsThen(s, [a], u, [b], t);
    run := [a] + [b];
  }

  /** The confirmation without the lease arrives first and is rolled back; the other's result is the row's. */
  lemma BothDelivered(s: System, p: Pid, q: Pid, first: Row, second: Row, late: string,
                      inTime: string) returns (run: seq<Act>, t: System)
    requires first.id == second.id && first.token != second.token && Current(s.db, second) && s.db.log == []
    requires s.net == multiset{Request(p, Commit(first, late)), Request(q, Commit(second, inTime))}
    ensures Runs(s, run, t) && t.sent == s.sent
    ensures t.db.log == Effects(second, inTime) && t.db.rows == s.db.rows[second.id := Closed(true)]
  {
    hide Runs, Commit, Effects;
    var a, b := Deliver(p, Commit(first, late), false), Deliver(q, Commit(second, inTime), false);
    DeliverRun(s, p, first, late);
    var u := s.(net := s.net - multiset{Request(p, Commit(first, late))});
    assert !Current(s.db, first) && u.db == s.db;
    assert u.net == multiset{Request(q, Commit(second, inTime))};
    DeliverRun(u, q, second, inTime);
    t := u.(net := u.net - multiset{Request(q, Commit(second, inTime))},
            db := u.db.(rows := u.db.rows[second.id := Closed(true)], log := u.db.log + Effects(second, inTime)));
    assert t.db.log == Effects(second, inTime);
    run := [a] + [b];
    RunsThen(s, [a], u, [b], t);
  }

  /**
   * From the start: a row given out, its lease lost, given out again, confirmed by both, and closed with one
   * result.
   */
  lemma LateConfirmation(s: System, id: Id, p: Pid, q: Pid, late: string, inTime: string)
    returns (run: seq<Act>, t: System)
    requires Init(s) && id !in s.db.rows && p in s.subs && q in s.subs && p != q
    ensures Runs(s, run, t) && t.db.rows == s.db.rows[id := Closed(true)]
    ensures t.db.log == Effects(Row(id, s.db.nextToken + 1), inTime)
    ensures Commit(Row(id, s.db.nextToken), late) in t.sent && Commit(Row(id, s.db.nextToken + 1), inTime) in t.sent
  {
    hide Runs, Commit, Effects;
    var one, u := NumbersRun(s, id, p, q);
    var two, v := TakenTwice(u, id, p, q);
    RunsThen(s, one, u, two, v);
    var first, second := Row(id, s.db.nextToken), Row(id, s.db.nextToken + 1);
    var three;
    var w;
    three, w := BothConfirm(v, p, q, first, second, late, inTime);
    RunsThen(s, one + two, v, three, w);
    var four;
    four, t := BothDelivered(w, p, q, first, second, late, inTime);
    RunsThen(s, one + two + three, w, four, t);
    run := one + two + three + four;
  }

  /** A row done stays done, with the confirmation it was closed by and the result that was executed with it. */
  lemma DoneForGood(s: System, run: seq<Act>, t: System, id: Id)
    requires Sound(s) && Runs(s, run, t) && id in s.db.rows && s.db.rows[id] == Closed(true)
    ensures id in t.db.rows && t.db.rows[id] == Closed(true)
    ensures exists i: nat :: (
      && i < |s.db.log| && i < |t.db.log| && s.db.log[i].Acked? && s.db.log[i].row.id == id
      && t.db.log[i] == s.db.log[i] && ResultAt(t.db.log, i) == ResultAt(s.db.log, i))
  {
    RunSound(s, run, t);
    hide TokensOk, PlacesOk, SentOk, Runs;
    var i: nat :| i < |s.db.log| && s.db.log[i].Acked? && s.db.log[i].row.id == id;
    assert t.db.log[i] == s.db.log[i] && (i > 0 ==> t.db.log[i - 1] == s.db.log[i - 1]);
  }

  /** A batch that settles the row of a confirmation sent is that confirmation. */
  lemma OneSettlement(sent: seq<Batch>, row: Row, result: string)
    requires Commit(row, result) in sent && Settled(sent)[row] <= 1
    ensures Settled(sent)[row] == 1
    ensures forall batch :: batch in sent && SettledIn(batch)[row] > 0 ==> batch == Commit(row, result)
  {
    CommitSettles(row, result);
    hide Settled, SettledIn;
    var k :| 0 <= k < |sent| && sent[k] == Commit(row, result);
    SettledAt(sent, k, row);
    forall batch | batch in sent && SettledIn(batch)[row] > 0 ensures batch == Commit(row, result) {
      var j :| 0 <= j < |sent| && sent[j] == batch;
      if j != k { SettledTwice(sent, j, k, row); }
    }
  }

  /**
   * What was confirmed under a token, with its result, was sent in one batch by its subscriber or by a module
   * itself; sent by the subscriber, it is the only thing sent under that token, which nobody ever refused.
   */
  lemma ResultIsItsSubscribers(s: System, run: seq<Act>, t: System, i: nat)
    requires Init(s) && Runs(s, run, t) && i < |t.db.log| && t.db.log[i].Acked?
    ensures var row, batch := t.db.log[i].row, Commit(t.db.log[i].row, ResultAt(t.db.log, i));
      && (batch in t.sent || batch in t.own)
      && (batch in t.sent ==>
            Settled(t.sent)[row] == 1 && forall b :: b in t.sent && SettledIn(b)[row] > 0 ==> b == batch)
  {
    InitSound(s);
    RunSound(s, run, t);
    hide Runs, Init, Settled, SettledIn, DbOk, PairedOk, PlacesOk, Shaped, Commit, ResultAt;
    var row := t.db.log[i].row;
    assert OnTheWay(t, row) + (if HeldBy(t, row) then 1 else 0) + Settled(t.sent)[row]
           <= if Issued(t, row) then 1 else 0;
    if Commit(row, ResultAt(t.db.log, i)) in t.sent { OneSettlement(t.sent, row, ResultAt(t.db.log, i)); }
  }

  lemma SettledLast(sent: seq<Batch>, row: Row)
    requires sent != []
    ensures Settled(sent)[row] == Settled(sent[..|sent| - 1])[row] + SettledIn(sent[|sent| - 1])[row]
  {
  }

  lemma {:induction false} SettledAt(sent: seq<Batch>, k: nat, row: Row)
    requires k < |sent|
    ensures SettledIn(sent[k])[row] <= Settled(sent)[row]
  {
    SettledLast(sent, row);
    hide Settled, SettledIn;
    if k < |sent| - 1 { SettledAt(sent[..|sent| - 1], k, row); }
  }

  lemma {:induction false} SettledTwice(sent: seq<Batch>, j: nat, k: nat, row: Row)
    requires j < |sent| && k < |sent| && j != k
    ensures SettledIn(sent[j])[row] + SettledIn(sent[k])[row] <= Settled(sent)[row]
  {
    SettledLast(sent, row);
    hide Settled, SettledIn;
    var last := |sent| - 1;
    if j == last { SettledAt(sent[..last], k, row); }
    else if k == last { SettledAt(sent[..last], j, row); }
    else { SettledTwice(sent[..last], j, k, row); }
  }
}
