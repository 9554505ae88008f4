/**
 WithinTx over arbitrary callbacks: a callback may write, fail, panic, recover from a panic, and call
 WithinTx again, on its own transactional client, on the client of an enclosing callback or on the
 root client.  The driver may refuse any request.
 */
module Transaction {
  datatype Client = Root | Tx(id: nat)

  datatype Error = Custom(code: int) | Driver | TxStarted | Starting | Committing | RollbackFailed(cause: Error)

  /** How a callback or a call to WithinTx ends. */
  datatype Outcome = Nil | Failed(error: Error) | Panicked(value: int)

  /** The driver's answer to one request.  `Lost` is an error although a commit took effect. */
  datatype Reply = Ok | Fail | Lost

  /**
   A callback.  `on` says whose client is used: 0 is the callback's own, k that of the k-th enclosing
   callback, and anything beyond the outermost callback is the root client.  `Last` hands on what the
   last call gave, an error or a panic that nobody recovered from.
   */
  datatype Program =
    | Return(outcome: Outcome)
    | Last
    | Write(on: nat, value: int, onOk: Program, onErr: Program)
    | Nested(on: nat, body: Program, onOk: Program, onErr: Program, onPanic: Program)

  datatype Event =
    | Begun(id: nat)
    | Wrote(id: nat, value: int)
    | Returned(id: nat, outcome: Outcome)
    | Committed(id: nat, applied: bool)
    | RolledBack(id: nat)

  /** A visible row and who wrote it. */
  datatype Row = Row(author: Client, value: int)

  /** `live` holds what open transactions have written, `log` is history, `replies` the driver's future
      answers; when they are used up the driver answers `Ok`. */
  datatype Db = Db(rows: seq<Row>, live: map<nat, seq<int>>, next: nat, log: seq<Event>, replies: seq<Reply>)

  // ------------------------------------------------------------- the driver

  function Answer(replies: seq<Reply>): Reply {
    if replies == [] then Ok else replies[0]
  }

  function Rest(replies: seq<Reply>): seq<Reply> {
    if replies == [] then [] else replies[1..]
  }

  function Tagged(author: Client, values: seq<int>): (rows: seq<Row>)
    ensures |rows| == |values|
  {
    if values == [] then []
    else Tagged(author, values[..|values| - 1]) + [Row(author, values[|values| - 1])]
  }

  function AfterBegin(db: Db): (bool, Db) {
    if Answer(db.replies).Ok? then
      (true, db.(live := db.live[db.next := []], next := db.next + 1, log := db.log + [Begun(db.next)],
                 replies := Rest(db.replies)))
    else (false, db.(replies := Rest(db.replies)))
  }

  /** A write through the root client is visible at once; a finished transaction refuses every request. */
  function AfterPut(db: Db, client: Client, value: int): (bool, Db) {
    if client.Tx? && client.id !in db.live then (false, db)
    else if !Answer(db.replies).Ok? then (false, db.(replies := Rest(db.replies)))
    else
      match client
      case Root => (true, db.(rows := db.rows + [Row(Root, value)], replies := Rest(db.replies)))
      case Tx(id) =>
        (true, db.(live := db.live[id := db.live[id] + [value]], log := db.log + [Wrote(id, value)],
                   replies := Rest(db.replies)))
  }

  function AfterCommit(db: Db, id: nat): (bool, Db) {
    if id !in db.live then (false, db)
    else
      var reply := Answer(db.replies);
      var rows := if reply.Fail? then db.rows else db.rows + Tagged(Tx(id), db.live[id]);
      (reply.Ok?, db.(rows := rows, live := db.live - {id}, log := db.log + [Committed(id, !reply.Fail?)],
                      replies := Rest(db.replies)))
  }

  function AfterRollback(db: Db, id: nat): (bool, Db) {
    if id !in db.live then (false, db)
    else
      (Answer(db.replies).Ok?,
       db.(live := db.live - {id}, log := db.log + [RolledBack(id)], replies := Rest(db.replies)))
  }

  // ------------------------------------------------- what WithinTx must do

  /** The client a callback names; `env` holds the transactions of the enclosing callbacks, outermost first. */
  function Pick(env: seq<nat>, on: nat): Client {
    if on < |env| then Tx(env[|env| - 1 - on]) else Root
  }

  function Run(env: seq<nat>, p: Program, last: Outcome, db: Db): (Outcome, Db)
    decreases p, 0
  {
    match p
    case Return(outcome) => (outcome, db)
    case Last => (last, db)
    case Write(on, value, onOk, onErr) =>
      var (ok, after) := AfterPut(db, Pick(env, on), value);
      if ok then Run(env, onOk, Nil, after) else Run(env, onErr, Failed(Driver), after)
    case Nested(on, body, onOk, onErr, onPanic) =>
      var (outcome, after) := Within(env, Pick(env, on), body, db);
      match outcome {
        case Nil => Run(env, onOk, outcome, after)
        case Failed(_) => Run(env, onErr, outcome, after)
        case Panicked(_) => Run(env, onPanic, outcome, after)
      }
  }

  function Within(env: seq<nat>, client: Client, body: Program, db: Db): (Outcome, Db)
    decreases body, 1
  {
    if client.Tx? then (Failed(TxStarted), db)
    else
      var (ok, begun) := AfterBegin(db);
      if !ok then (Failed(Starting), begun)
      else
        var (outcome, ran) := Run(env + [db.next], body, Nil, begun);
        Complete(ran, db.next, outcome)
  }

  /** From the callback's end to the end of WithinTx. */
  function Complete(ran: Db, id: nat, outcome: Outcome): (Outcome, Db) {
    var returned := ran.(log := ran.log + [Returned(id, outcome)]);
    match outcome
    case Panicked(_) => (outcome, AfterRollback(returned, id).1)
    case Failed(e) =>
      var (ok, after) := AfterRollback(returned, id);
      (if ok then outcome else Failed(RollbackFailed(e)), after)
    case Nil =>
      var (ok, after) := AfterCommit(returned, id);
      (if ok then Nil else Failed(Committing), after)
  }

  // --------------------------------------------------------- the life of one

  /** What a legal history says of one transaction: begun, writing, its callback returned, and then exactly
      one completion, a commit if the callback returned nil and a rollback otherwise. */
  datatype Life =
    | Fresh
    | Live(writes: seq<int>)
    | Returning(writes: seq<int>, outcome: Outcome)
    | Done(writes: seq<int>, applied: bool)
    | Broken

  function Advance(life: Life, e: Event): Life {
    match (life, e)
    case (Fresh, Begun(_)) => Live([])
    case (Live(ws), Wrote(_, value)) => Live(ws + [value])
    case (Live(ws), Returned(_, outcome)) => Returning(ws, outcome)
    case (Returning(ws, outcome), Committed(_, applied)) => if outcome.Nil? then Done(ws, applied) else Broken
    case (Returning(ws, outcome), RolledBack(_)) => if outcome.Nil? then Broken else Done(ws, false)
    case _ => Broken
  }

  function LifeOf(log: seq<Event>, id: nat): Life {
    if log == [] then Fresh
    else
      var before, e := LifeOf(log[..|log| - 1], id), log[|log| - 1];
      if e.id == id then Advance(before, e) else before
  }

  lemma LifeAppend(log: seq<Event>, e: Event, id: nat)
    ensures LifeOf(log + [e], id) == if e.id == id then Advance(LifeOf(log, id), e) else LifeOf(log, id)
  {
    assert (log + [e])[..|log|] == log;
  }

  /** The visible values one client wrote, in order. */
  function RowsOf(rows: seq<Row>, author: Client): seq<int> {
    if rows == [] then []
    else
      var before, row := RowsOf(rows[..|rows| - 1], author), rows[|rows| - 1];
      if row.author == author then before + [row.value] else before
  }

  lemma RowsPush(rows: seq<Row>, row: Row, who: Client)
    ensures RowsOf(rows + [row], who) == if row.author == who then RowsOf(rows, who) + [row.value] else RowsOf(rows, who)
  {
    assert (rows + [row])[..|rows|] == rows;
  }

  lemma {:induction false} RowsOfTagged(rows: seq<Row>, author: Client, values: seq<int>, who: Client)
    ensures RowsOf(rows + Tagged(author, values), who) == RowsOf(rows, who) + if who == author then values else []
  {
    if values == [] {
      assert rows + [] == rows;
    } else {
      var init, last := values[..|values| - 1], values[|values| - 1];
      RowsOfTagged(rows, author, init, who);
      RowsPush(rows + Tagged(author, init), Row(author, last), who);
      assert rows + Tagged(author, values) == rows + Tagged(author, init) + [Row(author, last)];
      Rejoin(RowsOf(rows, who), values);
    }
  }

  lemma Rejoin(before: seq<int>, values: seq<int>)
    requires values != []
    ensures before + values[..|values| - 1] + [values[|values| - 1]] == before + values
  {
  }

  /** History, open transactions and visible rows agree on transaction `id`: its history is legal, an open
      one shows nothing, and a finished one shows everything it wrote or nothing. */
  ghost predicate Agrees(db: Db, id: nat) {
    match LifeOf(db.log, id)
    case Fresh => id >= db.next && id !in db.live && RowsOf(db.rows, Tx(id)) == []
    case Live(ws) => id < db.next && id in db.live && db.live[id] == ws && RowsOf(db.rows, Tx(id)) == []
    case Done(ws, applied) =>
      id < db.next && id !in db.live && RowsOf(db.rows, Tx(id)) == if applied then ws else []
    case _ => false
  }

  ghost predicate Sound(db: Db) {
    forall id :: Agrees(db, id)
  }

  function Empty(replies: seq<Reply>): Db {
    Db([], map[], 0, [], replies)
  }

  lemma EmptySound(replies: seq<Reply>)
    ensures Sound(Empty(replies))
  {
    forall id
      ensures Agrees(Empty(replies), id)
    {
    }
  }

  lemma BeginKeepsSound(db: Db)
    requires Sound(db)
    ensures Sound(AfterBegin(db).1) && db.next !in db.live
    ensures AfterBegin(db).0 ==> AfterBegin(db).1.live.Keys == db.live.Keys + {db.next}
  {
    assert Agrees(db, db.next);
    var after := AfterBegin(db).1;
    forall id
      ensures Agrees(after, id)
    {
      assert Agrees(db, id);
      LifeAppend(db.log, Begun(db.next), id);
    }
  }

  lemma PutKeepsSound(db: Db, client: Client, value: int)
    requires Sound(db)
    ensures Sound(AfterPut(db, client, value).1)
    ensures AfterPut(db, client, value).1.live.Keys == db.live.Keys && AfterPut(db, client, value).1.next == db.next
  {
    var after := AfterPut(db, client, value).1;
    forall id
      ensures Agrees(after, id)
    {
      assert Agrees(db, id);
      if client.Tx? {
        LifeAppend(db.log, Wrote(client.id, value), id);
      } else {
        assert (db.rows + [Row(Root, value)])[..|db.rows|] == db.rows;
      }
    }
  }

  /** A transaction's last two events: its callback returned, and it was completed. */
  lemma LifeEnds(log: seq<Event>, id: nat, outcome: Outcome, end: Event, k: nat)
    requires end.id == id
    ensures LifeOf(log + [Returned(id, outcome)] + [end], k) ==
      if k == id then Advance(Advance(LifeOf(log, id), Returned(id, outcome)), end) else LifeOf(log, k)
  {
    LifeAppend(log, Returned(id, outcome), k);
    LifeAppend(log + [Returned(id, outcome)], end, k);
  }

  lemma CompleteKeepsSound(ran: Db, id: nat, outcome: Outcome)
    requires Sound(ran) && id in ran.live
    ensures Sound(Complete(ran, id, outcome).1)
    ensures Complete(ran, id, outcome).1.live == ran.live - {id}
    ensures Complete(ran, id, outcome).1.next == ran.next
  {
    var after := Complete(ran, id, outcome).1;
    var applied := outcome.Nil? && !Answer(ran.replies).Fail?;
    var end := if outcome.Nil? then Committed(id, applied) else RolledBack(id);
    assert after.log == ran.log + [Returned(id, outcome)] + [end];
    assert after.rows == if applied then ran.rows + Tagged(Tx(id), ran.live[id]) else ran.rows;
    forall k
      ensures Agrees(after, k)
    {
      EndAgrees(ran, id, outcome, applied, after, k);
    }
  }

  lemma EndAgrees(ran: Db, id: nat, outcome: Outcome, applied: bool, after: Db, k: nat)
    requires Agrees(ran, id) && Agrees(ran, k) && id in ran.live && (applied ==> outcome.Nil?)
    requires after.live == ran.live - {id} && after.next == ran.next
    requires after.log == ran.log + [Returned(id, outcome)]
      + [if outcome.Nil? then Committed(id, applied) else RolledBack(id)]
    requires after.rows == if applied then ran.rows + Tagged(Tx(id), ran.live[id]) else ran.rows
    ensures Agrees(after, k)
  {
    LifeEnds(ran.log, id, outcome, if outcome.Nil? then Committed(id, applied) else RolledBack(id), k);
    RowsOfTagged(ran.rows, Tx(id), ran.live[id], Tx(k));
  }

  /** Whatever the callback does and whatever the driver answers: afterwards exactly the transactions that
      were open before are open, and the histories and rows of all agree. */
  lemma {:induction false} RunKeepsSound(env: seq<nat>, p: Program, last: Outcome, db: Db)
    requires Sound(db)
    ensures Sound(Run(env, p, last, db).1)
    ensures Run(env, p, last, db).1.live.Keys == db.live.Keys && Run(env, p, last, db).1.next >= db.next
    decreases p, 0
  {
    match p
    case Return(_) =>
    case Last =>
    case Write(on, value, onOk, onErr) =>
      PutKeepsSound(db, Pick(env, on), value);
      var (ok, after) := AfterPut(db, Pick(env, on), value);
      if ok {
        RunKeepsSound(env, onOk, Nil, after);
      } else {
        RunKeepsSound(env, onErr, Failed(Driver), after);
      }
    case Nested(on, body, onOk, onErr, onPanic) =>
      WithinKeepsSound(env, Pick(env, on), body, db);
      var (outcome, after) := Within(env, Pick(env, on), body, db);
      match outcome {
        case Nil => RunKeepsSound(env, onOk, outcome, after);
        case Failed(_) => RunKeepsSound(env, onErr, outcome, after);
        case Panicked(_) => RunKeepsSound(env, onPanic, outcome, after);
      }
  }

  lemma {:induction false} WithinKeepsSound(env: seq<nat>, client: Client, body: Program, db: Db)
    requires Sound(db)
    ensures Sound(Within(env, client, body, db).1)
    ensures Within(env, client, body, db).1.live.Keys == db.live.Keys && Within(env, client, body, db).1.next >= db.next
    decreases body, 1
  {
    if client.Root? {
      BeginKeepsSound(db);
      var (ok, begun) := AfterBegin(db);
      if ok {
        RunKeepsSound(env + [db.next], body, Nil, begun);
        var (outcome, ran) := Run(env + [db.next], body, Nil, begun);
        CompleteKeepsSound(ran, db.next, outcome);
      }
    }
  }

  /** Every transaction that was begun during a call to WithinTx, at whatever depth, has ended when the call
      does: begun once, completed once, by a commit just when its callback returned nil, and what it
      wrote is visible as a whole or not at all. */
  lemma EveryTransactionEnds(env: seq<nat>, client: Client, body: Program, db: Db, after: Db, id: nat)
    requires Sound(db) && after == Within(env, client, body, db).1 && db.next <= id < after.next
    ensures LifeOf(after.log, id).Done?
    ensures var life := LifeOf(after.log, id);
      RowsOf(after.rows, Tx(id)) == if life.applied then life.writes else []
  {
    WithinKeepsSound(env, client, body, db);
    assert Agrees(db, id) && Agrees(after, id);
  }

  // --------------------------------------------------- the all-or-nothing law

  /** The callback uses its own client only; the bodies of nested calls do not matter. */
  predicate Scoped(p: Program) {
    match p
    case Return(_) => true
    case Last => true
    case Write(on, _, onOk, onErr) => on == 0 && Scoped(onOk) && Scoped(onErr)
    case Nested(on, _, onOk, onErr, onPanic) => on == 0 && Scoped(onOk) && Scoped(onErr) && Scoped(onPanic)
  }

  /** What a callback does, seen without any database: its outcome, its writes, the answers left over. */
  datatype Effect = Effect(outcome: Outcome, writes: seq<int>, rest: seq<Reply>)

  function EffectOf(p: Program, last: Outcome, replies: seq<Reply>): Effect {
    match p
    case Return(outcome) => Effect(outcome, [], replies)
    case Last => Effect(last, [], replies)
    case Write(_, value, onOk, onErr) =>
      if Answer(replies).Ok? then
        var e := EffectOf(onOk, Nil, Rest(replies));
        e.(writes := [value] + e.writes)
      else EffectOf(onErr, Failed(Driver), Rest(replies))
    case Nested(_, _, _, onErr, _) => EffectOf(onErr, Failed(TxStarted), replies)
  }

  lemma {:induction false} RunScoped(env: seq<nat>, p: Program, last: Outcome, db: Db)
    requires Scoped(p) && env != [] && env[|env| - 1] in db.live
    ensures var id, e := env[|env| - 1], EffectOf(p, last, db.replies);
      && var (outcome, after) := Run(env, p, last, db);
      && outcome == e.outcome && after.rows == db.rows && after.next == db.next && after.replies == e.rest
      && after.live == db.live[id := db.live[id] + e.writes]
  {
    var id := env[|env| - 1];
    match p
    case Return(_) => assert db.live[id] + [] == db.live[id];
    case Last => assert db.live[id] + [] == db.live[id];
    case Write(on, value, onOk, onErr) =>
      var (ok, after) := AfterPut(db, Tx(id), value);
      if ok {
        RunScoped(env, onOk, Nil, after);
        var e := EffectOf(onOk, Nil, after.replies);
        assert (db.live[id] + [value]) + e.writes == db.live[id] + ([value] + e.writes);
      } else {
        RunScoped(env, onErr, Failed(Driver), after);
      }
    case Nested(_, _, _, onErr, _) => RunScoped(env, onErr, Failed(TxStarted), db);
  }

  /** What the caller of WithinTx gets for the callback's outcome and the driver's last answer. */
  function Reported(outcome: Outcome, reply: Reply): Outcome {
    match outcome
    case Nil => if reply.Ok? then Nil else Failed(Committing)
    case Failed(e) => if reply.Ok? then outcome else Failed(RollbackFailed(e))
    case Panicked(_) => outcome
  }

  lemma CompletedOutcome(ran: Db, id: nat, outcome: Outcome)
    requires id in ran.live
    ensures var (reported, after) := Complete(ran, id, outcome);
      && reported == Reported(outcome, Answer(ran.replies))
      && after.live == ran.live - {id} && after.next == ran.next
      && after.rows == ran.rows + (
        if outcome.Nil? && !Answer(ran.replies).Fail? then Tagged(Tx(id), ran.live[id]) else [])
  {
  }

  lemma ScopedCallback(env: seq<nat>, body: Program, db: Db, outcome: Outcome, ran: Db)
    requires Scoped(body) && Answer(db.replies).Ok?
    requires (outcome, ran) == Run(env + [db.next], body, Nil, AfterBegin(db).1)
    ensures var e := EffectOf(body, Nil, Rest(db.replies));
      && outcome == e.outcome && ran.rows == db.rows && ran.next == db.next + 1 && ran.replies == e.rest
      && ran.live == db.live[db.next := e.writes]
  {
    var begun := AfterBegin(db).1;
    RunScoped(env + [db.next], body, Nil, begun);
    var e := EffectOf(body, Nil, begun.replies);
    assert [] + e.writes == e.writes;
    assert begun.live[db.next := e.writes] == db.live[db.next := e.writes];
  }

  /** One call on the root client, at any depth: nothing but the callback's whole effect, and that just when
      the callback returned nil and the commit took; one transaction; the panic or error handed on. */
  lemma AtomicCall(env: seq<nat>, body: Program, db: Db, outcome: Outcome, after: Db)
    requires Sound(db) && Scoped(body) && (outcome, after) == Within(env, Root, body, db)
    ensures after.live == db.live
    ensures !Answer(db.replies).Ok? ==> outcome == Failed(Starting) && after.rows == db.rows && after.next == db.next
    ensures Answer(db.replies).Ok? ==>
      var e := EffectOf(body, Nil, Rest(db.replies));
      && after.next == db.next + 1
      && outcome == Reported(e.outcome, Answer(e.rest))
      && after.rows == db.rows + (
        if e.outcome.Nil? && !Answer(e.rest).Fail? then Tagged(Tx(db.next), e.writes) else [])
  {
    if Answer(db.replies).Ok? {
      assert Agrees(db, db.next);
      var (returned, ran) := Run(env + [db.next], body, Nil, AfterBegin(db).1);
      ScopedCallback(env, body, db, returned, ran);
      CompletedOutcome(ran, db.next, returned);
      assert ran.live - {db.next} == db.live;
    }
  }

  /** A callback at this depth that uses transactional clients only, its own or those of enclosing callbacks. */
  predicate Inside(p: Program, depth: nat) {
    match p
    case Return(_) => true
    case Last => true
    case Write(on, _, onOk, onErr) => on < depth && Inside(onOk, depth) && Inside(onErr, depth)
    case Nested(on, _, onOk, onErr, onPanic) =>
      on < depth && Inside(onOk, depth) && Inside(onErr, depth) && Inside(onPanic, depth)
  }

  /** However often such a callback calls WithinTx again, and whatever it passes there: no second transaction is
      begun, none is completed, no row becomes visible, and it makes no difference what the nested bodies are. */
  lemma {:induction false} NestedNeverBegins(env: seq<nat>, p: Program, last: Outcome, db: Db)
    requires Inside(p, |env|)
    ensures var after := Run(env, p, last, db).1;
      && after.next == db.next && after.rows == db.rows && after.live.Keys == db.live.Keys
      && forall e: Event | !e.Wrote? :: e in after.log <==> e in db.log
    ensures Run(env, WithoutBodies(p), last, db) == Run(env, p, last, db)
  {
    match p
    case Return(_) =>
    case Last =>
    case Write(on, value, onOk, onErr) =>
      var (ok, after) := AfterPut(db, Pick(env, on), value);
      if ok {
        NestedNeverBegins(env, onOk, Nil, after);
      } else {
        NestedNeverBegins(env, onErr, Failed(Driver), after);
      }
    case Nested(_, _, _, onErr, _) => NestedNeverBegins(env, onErr, Failed(TxStarted), db);
  }

  /** The callback with nothing passed to its nested calls. */
  function WithoutBodies(p: Program): Program {
    match p
    case Return(_) => p
    case Last => p
    case Write(on, value, onOk, onErr) => Write(on, value, WithoutBodies(onOk), WithoutBodies(onErr))
    case Nested(on, _, onOk, onErr, onPanic) =>
      Nested(on, Return(Nil), WithoutBodies(onOk), WithoutBodies(onErr), WithoutBodies(onPanic))
  }

  // ------------------------------------------------------ one call after another

  function RunAll(bodies: seq<Program>, db: Db): Db
    decreases |bodies|
  {
    if bodies == [] then db else RunAll(bodies[1..], Within([], Root, bodies[0], db).1)
  }

  /** The effects of the callbacks that returned nil, one block after the other. */
  function Landed(bodies: seq<Program>, next: nat): seq<Row>
    decreases |bodies|
  {
    if bodies == [] then []
    else Lands(EffectOf(bodies[0], Nil, []), next) + Landed(bodies[1..], next + 1)
  }

  function Lands(e: Effect, id: nat): seq<Row> {
    if e.outcome.Nil? then Tagged(Tx(id), e.writes) else []
  }

  lemma {:induction false} NoRefusals(p: Program, last: Outcome)
    ensures EffectOf(p, last, []).rest == []
  {
    match p
    case Return(_) =>
    case Last =>
    case Write(_, _, onOk, _) => NoRefusals(onOk, Nil);
    case Nested(_, _, _, onErr, _) => NoRefusals(onErr, Failed(TxStarted));
  }

  lemma AnswersStayUsedUp(body: Program, db: Db)
    requires Sound(db) && Scoped(body) && db.replies == []
    ensures Within([], Root, body, db).1.replies == []
  {
    BeginKeepsSound(db);
    var begun := AfterBegin(db).1;
    RunScoped([db.next], body, Nil, begun);
    NoRefusals(body, Nil);
    assert [] + [db.next] == [db.next];
  }

  lemma OneOfSeries(body: Program, db: Db, after: Db)
    requires Sound(db) && Scoped(body) && db.replies == [] && after == Within([], Root, body, db).1
    ensures Sound(after) && after.replies == [] && after.next == db.next + 1
    ensures after.rows == db.rows + Lands(EffectOf(body, Nil, []), db.next)
  {
    AtomicCall([], body, db, Within([], Root, body, db).0, after);
    NoRefusals(body, Nil);
    AnswersStayUsedUp(body, db);
    WithinKeepsSound([], Root, body, db);
  }

  lemma Regroup(a: seq<Row>, b: seq<Row>, c: seq<Row>)
    ensures (a + b) + c == a + (b + c)
  {
  }

  /** With a driver that answers every request, any series of calls leaves exactly the effects of those whose
      callback returned nil, in the order of the calls, and nothing of the others. */
  lemma {:induction false} SeriesIsSumOfCommitted(bodies: seq<Program>, db: Db)
    requires Sound(db) && db.replies == [] && forall i | 0 <= i < |bodies| :: Scoped(bodies[i])
    ensures RunAll(bodies, db).rows == db.rows + Landed(bodies, db.next)
    decreases |bodies|
  {
    if bodies == [] {
      assert db.rows + [] == db.rows;
    } else {
      var after := Within([], Root, bodies[0], db).1;
      OneOfSeries(bodies[0], db, after);
      SeriesIsSumOfCommitted(bodies[1..], after);
      Regroup(db.rows, Lands(EffectOf(bodies[0], Nil, []), db.next), Landed(bodies[1..], after.next));
    }
  }

  /** Outside that scope the law fails: what a callback does through the root client survives its own rollback. */
  lemma OuterClientEscapes(db: Db)
    requires db == Empty([])
    ensures var body := Nested(1, Write(0, 1, Return(Nil), Last), Return(Failed(Custom(7))), Last, Last);
      && !Scoped(body)
      && Within([], Root, body, db).0 == Failed(Custom(7))
      && Within([], Root, body, db).1.rows == [Row(Tx(1), 1)]
  {
    var inner := Write(0, 1, Return(Nil), Last);
    var begun := AfterBegin(db).1;
    EmptySound([]);
    BeginKeepsSound(db);
    AtomicCall([0], inner, begun, Within([0], Root, inner, begun).0, Within([0], Root, inner, begun).1);
    assert EffectOf(inner, Nil, []) == Effect(Nil, [1], []);
    assert Tagged(Tx(1), [1]) == [Row(Tx(1), 1)] by {
      assert [1][..0] == [];
    }
    assert [] + [0] == [0];
  }

  // -------------------------------------------------------------- the program

  /** The database connection, updated in place. */
  class Database {
    var rows: seq<Row>
    var live: map<nat, seq<int>>
    var next: nat
    var log: seq<Event>
    var replies: seq<Reply>

    function Model(): Db
      reads this
    {
      Db(rows, live, next, log, replies)
    }

    constructor (replies: seq<Reply>)
      ensures Model() == Empty(replies) && Sound(Model())
    {
      rows, live, next, log, this.replies := [], map[], 0, [], replies;
    }

    method Ask() returns (reply: Reply)
      modifies this`replies
      ensures reply == Answer(old(replies)) && replies == Rest(old(replies))
      ensures old(replies) == [] ==> reply == Ok && replies == []
      ensures old(replies) != [] ==> [reply] + replies == old(replies)
    {
      reply := Ok;
      if replies != [] {
        reply := replies[0];
        replies := replies[1..];
      }
    }

    method Begin() returns (ok: bool, id: nat)
      modifies this
      ensures (ok, Model()) == AfterBegin(old(Model())) && id == old(next)
      ensures ok <==> old(replies) == [] || old(replies)[0].Ok?
      ensures rows == old(rows) && live == if ok then old(live)[id := []] else old(live)
    {
      id := next;
      var reply := Ask();
      ok := reply.Ok?;
      if ok {
        live, next, log := live[id := []], id + 1, log + [Begun(id)];
      }
    }

    method Put(client: Client, value: int) returns (ok: bool)
      modifies this
      ensures (ok, Model()) == AfterPut(old(Model()), client, value)
      ensures ok <==> (client.Root? || client.id in old(live)) && (old(replies) == [] || old(replies)[0].Ok?)
      ensures rows == old(rows) + if ok && client.Root? then [Row(Root, value)] else []
      ensures live == if ok && client.Tx? then old(live)[client.id := old(live)[client.id] + [value]] else old(live)
    {
      if client.Tx? && client.id !in live {
        return false;
      }
      var reply := Ask();
      ok := reply.Ok?;
      if ok {
        match client
        case Root => rows := rows + [Row(Root, value)];
        case Tx(id) => live, log := live[id := live[id] + [value]], log + [Wrote(id, value)];
      }
    }

    method Commit(id: nat) returns (ok: bool)
      modifies this
      ensures (ok, Model()) == AfterCommit(old(Model()), id)
      ensures ok <==> id in old(live) && (old(replies) == [] || old(replies)[0].Ok?)
      ensures live == old(live) - {id}
      ensures rows == old(rows) + (
        if id in old(live) && (old(replies) == [] || !old(replies)[0].Fail?) then Tagged(Tx(id), old(live)[id]) else [])
    {
      if id !in live {
        return false;
      }
      var reply := Ask();
      ok := reply.Ok?;
      if !reply.Fail? {
        rows := rows + Tagged(Tx(id), live[id]);
      }
      live, log := live - {id}, log + [Committed(id, !reply.Fail?)];
    }

    method Rollback(id: nat) returns (ok: bool)
      modifies this
      ensures (ok, Model()) == AfterRollback(old(Model()), id)
      ensures ok <==> id in old(live) && (old(replies) == [] || old(replies)[0].Ok?)
      ensures rows == old(rows) && live == old(live) - {id}
    {
      if id !in live {
        return false;
      }
      var reply := Ask();
      ok := reply.Ok?;
      live, log := live - {id}, log + [RolledBack(id)];
    }

    /** Runs a callback with the clients of `env` in reach. */
    method Call(env: seq<nat>, p: Program, last: Outcome) returns (outcome: Outcome)
      modifies this
      ensures (outcome, Model()) == Run(env, p, last, old(Model()))
      decreases p, 0
    {
      match p
      case Return(o) => outcome := o;
      case Last => outcome := last;
      case Write(on, value, onOk, onErr) =>
        var ok := Put(Pick(env, on), value);
        if ok {
          outcome := Call(env, onOk, Nil);
        } else {
          outcome := Call(env, onErr, Failed(Driver));
        }
      case Nested(on, body, onOk, onErr, onPanic) =>
        outcome := WithinTx(env, Pick(env, on), body);
        match outcome {
          case Nil => outcome := Call(env, onOk, outcome);
          case Failed(_) => outcome := Call(env, onErr, outcome);
          case Panicked(_) => outcome := Call(env, onPanic, outcome);
        }
    }

    method WithinTx(env: seq<nat>, client: Client, body: Program) returns (outcome: Outcome)
      modifies this
      ensures (outcome, Model()) == Within(env, client, body, old(Model()))
      ensures old(Sound(Model())) ==> Sound(Model()) && live.Keys == old(live.Keys)
      decreases body, 1
    {
      ghost var before := Model();
      if client.Tx? {
        return Failed(TxStarted);
      }
      var ok, id := Begin();
      if !ok {
        outcome := Failed(Starting);
      } else {
        outcome := Call(env + [id], body, Nil);
        log := log + [Returned(id, outcome)];
        match outcome {
          case Panicked(_) =>
            var _ := Rollback(id);
          case Failed(e) =>
            var undone := Rollback(id);
            if !undone {
              outcome := Failed(RollbackFailed(e));
            }
          case Nil =>
            var committed := Commit(id);
            if !committed {
              outcome := Failed(Committing);
            }
        }
      }
      if Sound(before) {
        WithinKeepsSound(env, client, body, before);
      }
    }
  }
}
