/**
  The transaction discipline shared by the handler invoker (Work\Handler::run) and
  the legacy App::handler: begin, call the handler, commit; when the call or the
  commit throws, roll back and rethrow.
 */
module Transaction {
  import opened Php
  import opened Exceptions
  import opened Container
  import opened Effects

  /**
    Runs the handler call `call`, whose outcome is `result`, inside a transaction on
    `db` when `open` holds, and gives the outcome together with the effects in order.
    The commit sits inside the same try as the call, so a commit that throws is
    rolled back too; an exception from the rollback replaces the one being rethrown.
   */
  function Transact<T>(open: bool, db: Database, call: Effect, result: Outcome<T>): (r: (Outcome<T>, seq<Effect>))
    requires !call.IsTx()
    ensures !open ==> r == (result, [call])
    ensures open && db.beginError.Some? ==> r == (Threw(db.beginError.value), [BeginTx])
    ensures open && db.beginError.None? ==>
              && |r.1| >= 3 && r.1[0] == BeginTx && r.1[1] == call
              && (forall i :: 2 <= i < |r.1| ==> r.1[i].IsTx())
    ensures r.0.Returned? ==> r.0 == result
    ensures open && db.beginError.None? && result.Threw? ==>
              r.0 == Threw(if db.rollbackError.Some? then db.rollbackError.value else result.error)
  {
    if !open then (result, [call])
    else if db.beginError.Some? then (Threw(db.beginError.value), [BeginTx])
    else match result
      case Threw(e) =>
        (Threw(if db.rollbackError.Some? then db.rollbackError.value else e), [BeginTx, call, RollbackTx])
      case Returned(_) =>
        if db.commitError.None? then (result, [BeginTx, call, CommitTx])
        else
          var c := db.commitError.value;
          (Threw(if db.rollbackError.Some? then db.rollbackError.value else c), [BeginTx, call, CommitTx, RollbackTx])
  }

  /**
    The database calls a transactional run makes: none without a transaction;
    begin then commit after a call that returned; begin then rollback after a call
    that threw; and a rollback after the commit only when the commit itself threw.
   */
  lemma TransactTrace<T>(open: bool, db: Database, call: Effect, result: Outcome<T>)
    requires !call.IsTx()
    ensures var r := Transact(open, db, call, result);
            DbTrace(r.1) == if !open then []
                            else if db.beginError.Some? then [BeginTx]
                            else if result.Threw? then [BeginTx, RollbackTx]
                            else if db.commitError.None? then [BeginTx, CommitTx]
                            else [BeginTx, CommitTx, RollbackTx]
  {
    var r := Transact(open, db, call, result);
    if !open {
      DbTraceCons(call, []);
    } else if db.beginError.Some? {
      DbTraceAllTx(r.1);
    } else if result.Threw? {
      assert r.1 == [BeginTx, call] + [RollbackTx];
      TracePastCall(call, [RollbackTx]);
    } else if db.commitError.None? {
      assert r.1 == [BeginTx, call] + [CommitTx];
      TracePastCall(call, [CommitTx]);
    } else {
      assert r.1 == [BeginTx, call] + [CommitTx, RollbackTx];
      TracePastCall(call, [CommitTx, RollbackTx]);
    }
  }

  /** The trace of a begin, a call that is no database call, then database calls only. */
  lemma TracePastCall(call: Effect, rest: seq<Effect>)
    requires !call.IsTx()
    requires forall i :: 0 <= i < |rest| ==> rest[i].IsTx()
    ensures DbTrace([BeginTx, call] + rest) == [BeginTx] + rest
  {
    var tail := [call] + rest;
    DbTraceCons(call, rest);
    assert [BeginTx, call] + rest == [BeginTx] + tail;
    DbTraceCons(BeginTx, tail);
    DbTraceAllTx(rest);
    assert DbTrace([BeginTx, call] + rest) == DbTrace([BeginTx] + tail);
    assert DbTrace([BeginTx] + tail) == [BeginTx] + DbTrace(tail);
    assert DbTrace(tail) == [] + DbTrace(rest);
    assert [] + DbTrace(rest) == rest;
  }

  /**
    Commit happens only after a call that returned; a rollback happens only after a
    call that threw or a commit that threw, and the outcome is then an exception;
    commit and rollback both occur only when the commit threw.
   */
  lemma TransactionDiscipline<T>(open: bool, db: Database, call: Effect, result: Outcome<T>)
    requires !call.IsTx()
    ensures var r := Transact(open, db, call, result);
            && (CommitTx in r.1 ==> result.Returned? && call in r.1)
            && (RollbackTx in r.1 ==> (result.Threw? || db.commitError.Some?) && r.0.Threw?)
            && (CommitTx in r.1 && RollbackTx in r.1 ==> db.commitError.Some?)
  {
    var r := Transact(open, db, call, result);
    TransactTrace(open, db, call, result);
  }

  /**
    The transaction around a call that throws `e` before it reaches anything outside
    the process: the database calls of `Transact` for a call that throws, and no call.
   */
  function TransactUnreached<T>(open: bool, db: Database, e: Exception): (r: (Outcome<T>, seq<Effect>))
    ensures r.0.Threw?
    ensures forall i :: 0 <= i < |r.1| ==> r.1[i].IsTx()
  {
    if !open then (Threw(e), [])
    else if db.beginError.Some? then (Threw(db.beginError.value), [BeginTx])
    else (Threw(if db.rollbackError.Some? then db.rollbackError.value else e), [BeginTx, RollbackTx])
  }

  /**
    A call that throws before reaching anything ends the transaction as a call that
    throws the same exception: the same outcome and the same database calls, with the
    call itself missing.
   */
  lemma TransactUnreachedMatches<T>(open: bool, db: Database, call: Effect, e: Exception)
    requires !call.IsTx()
    ensures var u := TransactUnreached<T>(open, db, e);
            var t := Transact<T>(open, db, call, Threw(e));
            && u.0 == t.0 && u.1 == DbTrace(t.1) && call !in u.1
            && (!open || db.beginError.None? ==> call in t.1)
  {
    TransactTrace<T>(open, db, call, Threw(e));
  }
}
