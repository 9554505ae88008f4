/**
 The life of the application from Run to the end of Shutdown, as a transition system: the main
 goroutine, up to three drain goroutines and the result channel of capacity three.  Every
 property holds in every interleaving, and every interleaving comes to an end.
 */
module Shutdown {
  import opened Prelude

  datatype Op =
    | StartAccess | StartWorker | StartScheduler | Serve
    | StopWorker
    | DrainServer | DrainScheduler | DrainWorker
    | CloseAccess | CloseDB | ClosePublisher | CloseRedis | CloseLogger

  /** The components that were configured. */
  datatype App = App(access: bool, worker: bool, scheduler: bool, server: bool,
                     db: bool, publisher: bool, redis: bool, logger: bool)

  datatype Event = Begin(op: Op) | End(op: Op, ok: bool)

  /** A drain goroutine. */
  datatype Job = Launched | Running | Ready(ok: bool) | Sent

  datatype Pc = Start(k: nat) | BeforeStop | Stopping | Launching | Collecting | Closing(k: nat, busy: bool) | Finished

  /** `errs` are the operations whose errors were joined so far; `log` is history. */
  datatype State = State(
    pc: Pc,
    workerStarted: bool,
    schedulerStarted: bool,
    jobs: seq<Job>,
    channel: seq<(Op, bool)>,
    received: nat,
    errs: seq<Op>,
    log: seq<Event>)

  const CAPACITY := 3

  const STARTS: seq<Op> := [StartAccess, StartWorker, StartScheduler, Serve]

  function Init(): State {
    State(Start(0), false, false, [], [], 0, [], [])
  }

  /** The component behind a start or close call is configured. */
  predicate Present(app: App, op: Op) {
    match op
    case StartAccess => app.access
    case StartWorker => app.worker
    case StartScheduler => app.scheduler
    case CloseAccess => app.access
    case CloseDB => app.db
    case ClosePublisher => app.publisher
    case CloseRedis => app.redis
    case CloseLogger => app.logger
    case _ => true
  }

  /** The condition under which Shutdown makes a call. */
  predicate Wanted(app: App, s: State, op: Op) {
    match op
    case DrainServer => app.server
    case DrainScheduler => app.scheduler && s.schedulerStarted
    case DrainWorker => app.worker && s.workerStarted
    case _ => Present(app, op)
  }

  const ALL_DRAINS: seq<Op> := [DrainServer, DrainScheduler, DrainWorker]

  const ALL_CLOSERS: seq<Op> := [CloseAccess, CloseDB, ClosePublisher, CloseRedis, CloseLogger]

  function Select(app: App, s: State, ops: seq<Op>): (d: seq<Op>)
    ensures |d| <= |ops|
  {
    if ops == [] then []
    else
      var init, last := Select(app, s, ops[..|ops| - 1]), ops[|ops| - 1];
      if Wanted(app, s, last) then init + [last] else init
  }

  /** The drains Shutdown launches, in order. */
  function Drains(app: App, s: State): (d: seq<Op>)
    ensures |d| <= CAPACITY
  {
    Select(app, s, ALL_DRAINS)
  }

  /** The resources Shutdown closes, in order. */
  function Closers(app: App): seq<Op> {
    Select(app, Init(), ALL_CLOSERS)
  }

  /** The place of an operation in the source text of Shutdown. */
  function Place(op: Op): nat {
    match op
    case StartAccess => 0
    case StartWorker => 1
    case StartScheduler => 2
    case Serve => 3
    case StopWorker => 4
    case DrainServer => 5
    case DrainScheduler => 6
    case DrainWorker => 7
    case CloseAccess => 8
    case CloseDB => 9
    case ClosePublisher => 10
    case CloseRedis => 11
    case CloseLogger => 12
  }

  ghost predicate InPlace(ops: seq<Op>) {
    forall i, j | 0 <= i < j < |ops| :: Place(ops[i]) < Place(ops[j])
  }

  lemma {:induction false} SelectMeans(app: App, s: State, ops: seq<Op>)
    requires InPlace(ops)
    ensures InPlace(Select(app, s, ops))
    ensures forall op :: op in Select(app, s, ops) <==> op in ops && Wanted(app, s, op)
  {
    if ops != [] {
      var prefix, last := ops[..|ops| - 1], ops[|ops| - 1];
      SelectMeans(app, s, prefix);
      assert ops == prefix + [last];
      StaysInPlace(prefix, Select(app, s, prefix), last);
    }
  }

  /** Appending what comes after all of `prefix` to some of its elements keeps the order. */
  lemma StaysInPlace(prefix: seq<Op>, init: seq<Op>, last: Op)
    requires InPlace(prefix + [last]) && InPlace(init) && forall op | op in init :: op in prefix
    ensures InPlace(init + [last])
  {
    forall i | 0 <= i < |init|
      ensures Place(init[i]) < Place(last)
    {
      assert init[i] in prefix;
      var j :| 0 <= j < |prefix| && prefix[j] == init[i];
      assert (prefix + [last])[j] == prefix[j] && (prefix + [last])[|prefix|] == last;
    }
  }

  lemma {:induction false} SelectStable(app: App, s: State, s': State, ops: seq<Op>)
    requires s'.workerStarted == s.workerStarted && s'.schedulerStarted == s.schedulerStarted
    ensures Select(app, s', ops) == Select(app, s, ops)
  {
    if ops != [] {
      SelectStable(app, s, s', ops[..|ops| - 1]);
    }
  }

  // ------------------------------------------------------------------- steps

  /** The main goroutine's next step, or a step of drain goroutine `j`; `ok` is the outcome of a call that ends. */
  datatype Step = Main(ok: bool) | Drain(j: nat, ok: bool)

  function Log(s: State, e: Event): State {
    s.(log := s.log + [e])
  }

  function Note(s: State, op: Op, ok: bool): State {
    s.(log := s.log + [End(op, ok)], errs := if ok then s.errs else s.errs + [op])
  }

  function StepStart(app: App, s: State, k: nat, ok: bool): State
    requires k < |STARTS|
  {
    var op := STARTS[k];
    var next := if k + 1 < |STARTS| then Start(k + 1) else BeforeStop;
    if !Present(app, op) then s.(pc := next)
    else
      Note(s, op, ok).(
        pc := if ok then next else BeforeStop,
        workerStarted := s.workerStarted || (op == StartWorker && ok),
        schedulerStarted := s.schedulerStarted || (op == StartScheduler && ok))
  }

  function StepMain(app: App, drains: seq<Op>, closers: seq<Op>, s: State, ok: bool): State {
    match s.pc
    case Start(k) => if k < |STARTS| then StepStart(app, s, k, ok) else s.(pc := BeforeStop)
    case BeforeStop =>
      if app.worker && s.workerStarted then Log(s, Begin(StopWorker)).(pc := Stopping) else s.(pc := Launching)
    case Stopping => Note(s, StopWorker, ok).(pc := Launching)
    case Launching =>
      if |s.jobs| < |drains| then s.(jobs := s.jobs + [Launched]) else s.(pc := Collecting)
    case Collecting =>
      if s.received >= |s.jobs| then s.(pc := Closing(0, false))
      else if s.channel == [] then s
      else
        s.(channel := s.channel[1..], received := s.received + 1,
           errs := if s.channel[0].1 then s.errs else s.errs + [s.channel[0].0])
    case Closing(k, busy) =>
      if k >= |closers| then s.(pc := Finished)
      else if !busy then Log(s, Begin(closers[k])).(pc := Closing(k, true))
      else Note(s, closers[k], ok).(pc := Closing(k + 1, false))
    case Finished => s
  }

  function StepDrain(drains: seq<Op>, s: State, j: nat, ok: bool): State
    requires j < |s.jobs|
  {
    if j >= |drains| then s
    else
      var op := drains[j];
      match s.jobs[j]
      case Launched => Log(s, Begin(op)).(jobs := s.jobs[j := Running])
      case Running => Log(s, End(op, ok)).(jobs := s.jobs[j := Ready(ok)])
      case Ready(result) =>
        if |s.channel| < CAPACITY then s.(channel := s.channel + [(op, result)], jobs := s.jobs[j := Sent]) else s
      case Sent => s
  }

  function Apply(app: App, s: State, step: Step): State {
    match step
    case Main(ok) => StepMain(app, Drains(app, s), Closers(app), s, ok)
    case Drain(j, ok) => if j < |s.jobs| then StepDrain(Drains(app, s), s, j, ok) else s
  }

  function Exec(app: App, s: State, steps: seq<Step>): State
    decreases |steps|
  {
    if steps == [] then s else Exec(app, Apply(app, s, steps[0]), steps[1..])
  }

  // ------------------------------------------------------- what the log says

  /** The phase of an operation: starts, stop, drains, then the closers one by one. */
  function Rank(op: Op): nat {
    match op
    case StartAccess => 0
    case StartWorker => 1
    case StartScheduler => 2
    case Serve => 3
    case StopWorker => 4
    case DrainServer => 5
    case DrainScheduler => 5
    case DrainWorker => 5
    case CloseAccess => 6
    case CloseDB => 7
    case ClosePublisher => 8
    case CloseRedis => 9
    case CloseLogger => 10
  }

  /** No event of a later phase comes before one of an earlier phase. */
  ghost predicate Ordered(log: seq<Event>) {
    forall i, j | 0 <= i < j < |log| :: Rank(log[i].op) <= Rank(log[j].op)
  }

  /** The events of one operation, in order. */
  function Trace(log: seq<Event>, op: Op): seq<Event> {
    if log == [] then []
    else Trace(log[..|log| - 1], op) + if log[|log| - 1].op == op then [log[|log| - 1]] else []
  }

  lemma TraceAppend(log: seq<Event>, e: Event, op: Op)
    ensures Trace(log + [e], op) == if e.op == op then Trace(log, op) + [e] else Trace(log, op)
  {
    assert (log + [e])[..|log|] == log;
  }

  function One(b: bool): nat {
    if b then 1 else 0
  }

  /** How often an operation ended with an error. */
  function Failures(log: seq<Event>, op: Op): nat {
    if log == [] then 0
    else Failures(log[..|log| - 1], op) + One(log[|log| - 1] == End(op, false))
  }

  lemma FailuresAppend(log: seq<Event>, e: Event, op: Op)
    ensures Failures(log + [e], op) == Failures(log, op) + One(e == End(op, false))
  {
    assert (log + [e])[..|log|] == log;
  }

  /** How often an operation's error was joined. */
  function Joined(errs: seq<Op>, op: Op): nat {
    if errs == [] then 0 else Joined(errs[..|errs| - 1], op) + One(errs[|errs| - 1] == op)
  }

  lemma JoinedAppend(errs: seq<Op>, e: Op, op: Op)
    ensures Joined(errs + [e], op) == Joined(errs, op) + One(e == op)
  {
    assert (errs + [e])[..|errs|] == errs;
  }

  // ------------------------------------------------------------- the counters

  function Weight(job: Job): nat {
    if job.Sent? then 1 else 0
  }

  function CountSent(jobs: seq<Job>): (n: nat)
    ensures n <= |jobs|
  {
    if jobs == [] then 0 else CountSent(jobs[..|jobs| - 1]) + Weight(jobs[|jobs| - 1])
  }

  lemma {:induction false} CountUpdate(jobs: seq<Job>, j: nat, job: Job)
    requires j < |jobs|
    ensures CountSent(jobs[j := job]) == CountSent(jobs) - Weight(jobs[j]) + Weight(job)
  {
    var jobs' := jobs[j := job];
    if j < |jobs| - 1 {
      CountUpdate(jobs[..|jobs| - 1], j, job);
      assert jobs'[..|jobs| - 1] == jobs[..|jobs| - 1][j := job];
    } else {
      assert jobs'[..|jobs| - 1] == jobs[..|jobs| - 1];
    }
  }

  lemma CountPush(jobs: seq<Job>, job: Job)
    ensures CountSent(jobs + [job]) == CountSent(jobs) + Weight(job)
  {
    var longer := jobs + [job];
    assert longer[..|longer| - 1] == jobs && longer[|longer| - 1] == job;
  }

  /** Failures of `op` that a drain has produced but not yet sent. */
  function Unsent(jobs: seq<Job>, drains: seq<Op>, op: Op): nat
    requires |jobs| <= |drains|
  {
    if jobs == [] then 0
    else Unsent(jobs[..|jobs| - 1], drains, op) + One(jobs[|jobs| - 1] == Ready(false) && drains[|jobs| - 1] == op)
  }

  lemma {:induction false} UnsentUpdate(jobs: seq<Job>, drains: seq<Op>, j: nat, job: Job, op: Op)
    requires j < |jobs| <= |drains|
    ensures Unsent(jobs[j := job], drains, op) == Unsent(jobs, drains, op)
      - One(jobs[j] == Ready(false) && drains[j] == op) + One(job == Ready(false) && drains[j] == op)
  {
    var jobs' := jobs[j := job];
    if j < |jobs| - 1 {
      UnsentUpdate(jobs[..|jobs| - 1], drains, j, job, op);
      assert jobs'[..|jobs| - 1] == jobs[..|jobs| - 1][j := job];
    } else {
      assert jobs'[..|jobs| - 1] == jobs[..|jobs| - 1];
    }
  }

  /** Failures of `op` waiting in the channel. */
  function Waiting(channel: seq<(Op, bool)>, op: Op): nat {
    if channel == [] then 0 else One(channel[0] == (op, false)) + Waiting(channel[1..], op)
  }

  lemma {:induction false} WaitingAppend(channel: seq<(Op, bool)>, entry: (Op, bool), op: Op)
    ensures Waiting(channel + [entry], op) == Waiting(channel, op) + One(entry == (op, false))
  {
    if channel != [] {
      assert (channel + [entry])[1..] == channel[1..] + [entry];
      WaitingAppend(channel[1..], entry, op);
    }
  }

  // ---------------------------------------------------------- the invariant

  predicate Started(pc: Pc) {
    !pc.Start? && !pc.BeforeStop? && !pc.Stopping?
  }

  predicate Collected(pc: Pc) {
    pc.Closing? || pc.Finished?
  }

  /** Goroutines, channel and counter agree; no result is lost and none is invented. */
  ghost predicate Counted(drains: seq<Op>, closers: seq<Op>, s: State) {
    && |s.jobs| <= |drains|
    && CountSent(s.jobs) == |s.channel| + s.received
    && (!Started(s.pc) ==> s.jobs == [])
    && (s.pc.Collecting? || Collected(s.pc) ==> |s.jobs| == |drains|)
    && (Collected(s.pc) ==> s.received == |s.jobs|)
    && (s.pc.Closing? ==> s.pc.k <= |closers| && (s.pc.busy ==> s.pc.k < |closers|))
    && (s.pc.Start? ==> s.pc.k < |STARTS|)
  }

  lemma DrainKeepsCounted(drains: seq<Op>, closers: seq<Op>, s: State, j: nat, ok: bool)
    requires Counted(drains, closers, s) && j < |s.jobs|
    ensures Counted(drains, closers, StepDrain(drains, s, j, ok))
  {
    var s' := StepDrain(drains, s, j, ok);
    CountUpdate(s.jobs, j, s'.jobs[j]);
    assert s'.jobs == s.jobs[j := s'.jobs[j]];
  }

  lemma StartKeepsCounted(app: App, drains: seq<Op>, closers: seq<Op>, s: State, k: nat, ok: bool)
    requires Counted(drains, closers, s) && s.pc == Start(k)
    ensures Counted(drains, closers, StepStart(app, s, k, ok))
  {
    var s' := StepStart(app, s, k, ok);
    assert s'.jobs == s.jobs && s'.channel == s.channel && s'.received == s.received;
    assert (s'.pc == Start(k + 1) && k + 1 < |STARTS|) || s'.pc == BeforeStop;
  }

  lemma LaunchKeepsCounted(drains: seq<Op>, closers: seq<Op>, s: State)
    requires Counted(drains, closers, s) && s.pc.Launching? && |s.jobs| < |drains|
    ensures Counted(drains, closers, s.(jobs := s.jobs + [Launched]))
  {
    CountPush(s.jobs, Launched);
  }

  lemma MainKeepsCounted(app: App, drains: seq<Op>, closers: seq<Op>, s: State, ok: bool)
    requires Counted(drains, closers, s)
    ensures Counted(drains, closers, StepMain(app, drains, closers, s, ok))
  {
    if s.pc.Start? {
      StartKeepsCounted(app, drains, closers, s, s.pc.k, ok);
    } else if s.pc.Launching? && |s.jobs| < |drains| {
      LaunchKeepsCounted(drains, closers, s);
    }
  }

  /** A drain goroutine never blocks: whenever one has a result, the channel has room for it. */
  lemma NeverBlocks(drains: seq<Op>, closers: seq<Op>, s: State, j: nat)
    requires Counted(drains, closers, s) && |drains| <= CAPACITY && j < |s.jobs| && s.jobs[j].Ready?
    ensures |s.channel| < CAPACITY
  {
    CountUpdate(s.jobs, j, Sent);
  }

  /** While resources are being closed every launched drain has reported. */
  lemma ClosingAfterReports(drains: seq<Op>, closers: seq<Op>, s: State, j: nat)
    requires Counted(drains, closers, s) && Collected(s.pc) && j < |s.jobs|
    ensures s.jobs[j].Sent? && s.channel == []
  {
    CountUpdate(s.jobs, j, Sent);
  }

  // ------------------------------------------------------------ the error list

  /** Every joined error is a failure, and every failure is joined, waiting or about to be sent. */
  ghost predicate Accounted(drains: seq<Op>, s: State)
    requires |s.jobs| <= |drains|
  {
    forall op :: Failures(s.log, op) == Joined(s.errs, op) + Waiting(s.channel, op) + Unsent(s.jobs, drains, op)
  }

  /** A goroutine that begins or ends its call. */
  lemma JobLogKeepsAccounted(drains: seq<Op>, s: State, j: nat, job: Job, e: Event)
    requires j < |s.jobs| <= |drains| && Accounted(drains, s) && s.jobs[j] != Ready(false)
    requires (e == Begin(drains[j]) && !job.Ready?) || (job.Ready? && e == End(drains[j], job.ok))
    ensures Accounted(drains, s.(log := s.log + [e], jobs := s.jobs[j := job]))
  {
    forall op
      ensures Failures(s.log + [e], op) == Joined(s.errs, op) + Waiting(s.channel, op) + Unsent(s.jobs[j := job], drains, op)
    {
      UnsentUpdate(s.jobs, drains, j, job, op);
      FailuresAppend(s.log, e, op);
    }
  }

  lemma SendKeepsAccounted(drains: seq<Op>, s: State, j: nat)
    requires j < |s.jobs| <= |drains| && Accounted(drains, s) && s.jobs[j].Ready?
    ensures Accounted(drains, s.(channel := s.channel + [(drains[j], s.jobs[j].ok)], jobs := s.jobs[j := Sent]))
  {
    var entry := (drains[j], s.jobs[j].ok);
    forall op
      ensures Waiting(s.channel + [entry], op) + Unsent(s.jobs[j := Sent], drains, op)
        == Waiting(s.channel, op) + Unsent(s.jobs, drains, op)
    {
      UnsentUpdate(s.jobs, drains, j, Sent, op);
      WaitingAppend(s.channel, entry, op);
    }
  }

  lemma DrainKeepsAccounted(drains: seq<Op>, s: State, j: nat, ok: bool)
    requires j < |s.jobs| <= |drains| && Accounted(drains, s)
    ensures |StepDrain(drains, s, j, ok).jobs| <= |drains|
    ensures Accounted(drains, StepDrain(drains, s, j, ok))
  {
    match s.jobs[j]
    case Launched => JobLogKeepsAccounted(drains, s, j, Running, Begin(drains[j]));
    case Running => JobLogKeepsAccounted(drains, s, j, Ready(ok), End(drains[j], ok));
    case Ready(_) => SendKeepsAccounted(drains, s, j);
    case Sent =>
  }

  /** A call of the main goroutine that ends. */
  lemma NoteKeepsAccounted(drains: seq<Op>, s: State, noted: Op, ok: bool)
    requires |s.jobs| <= |drains| && Accounted(drains, s)
    ensures Accounted(drains, Note(s, noted, ok))
  {
    forall op
      ensures var s' := Note(s, noted, ok);
        Failures(s'.log, op) == Joined(s'.errs, op) + Waiting(s'.channel, op) + Unsent(s'.jobs, drains, op)
    {
      FailuresAppend(s.log, End(noted, ok), op);
      JoinedAppend(s.errs, noted, op);
    }
  }

  lemma BeginKeepsAccounted(drains: seq<Op>, s: State, begun: Op)
    requires |s.jobs| <= |drains| && Accounted(drains, s)
    ensures Accounted(drains, Log(s, Begin(begun)))
  {
    forall op
      ensures Failures(s.log + [Begin(begun)], op) == Failures(s.log, op)
    {
      FailuresAppend(s.log, Begin(begun), op);
    }
  }

  lemma LaunchKeepsAccounted(drains: seq<Op>, s: State)
    requires |s.jobs| < |drains| && Accounted(drains, s)
    ensures Accounted(drains, s.(jobs := s.jobs + [Launched]))
  {
    assert (s.jobs + [Launched])[..|s.jobs|] == s.jobs;
  }

  lemma CollectKeepsAccounted(drains: seq<Op>, s: State)
    requires |s.jobs| <= |drains| && Accounted(drains, s) && s.channel != []
    ensures Accounted(drains, s.(channel := s.channel[1..], received := s.received + 1,
      errs := if s.channel[0].1 then s.errs else s.errs + [s.channel[0].0]))
  {
    var errs := if s.channel[0].1 then s.errs else s.errs + [s.channel[0].0];
    forall op
      ensures Joined(errs, op) + Waiting(s.channel[1..], op) == Joined(s.errs, op) + Waiting(s.channel, op)
    {
      JoinedAppend(s.errs, s.channel[0].0, op);
    }
  }

  lemma MainKeepsAccounted(app: App, drains: seq<Op>, closers: seq<Op>, s: State, ok: bool)
    requires Counted(drains, closers, s) && Accounted(drains, s)
    ensures |StepMain(app, drains, closers, s, ok).jobs| <= |drains|
    ensures Accounted(drains, StepMain(app, drains, closers, s, ok))
  {
    if s.pc.Launching? {
      if |s.jobs| < |drains| {
        LaunchKeepsAccounted(drains, s);
      }
    } else if s.pc.Collecting? {
      if s.received < |s.jobs| && s.channel != [] {
        CollectKeepsAccounted(drains, s);
      }
    } else {
      CallKeepsAccounted(app, drains, closers, s, ok);
    }
  }

  /** The steps of the main goroutine that begin or end a call. */
  lemma CallKeepsAccounted(app: App, drains: seq<Op>, closers: seq<Op>, s: State, ok: bool)
    requires Counted(drains, closers, s) && Accounted(drains, s) && !s.pc.Launching? && !s.pc.Collecting?
    ensures StepMain(app, drains, closers, s, ok).jobs == s.jobs
    ensures Accounted(drains, StepMain(app, drains, closers, s, ok))
  {
    match s.pc
    case Start(k) => NoteKeepsAccounted(drains, s, STARTS[k], ok);
    case BeforeStop => BeginKeepsAccounted(drains, s, StopWorker);
    case Stopping => NoteKeepsAccounted(drains, s, StopWorker, ok);
    case Closing(k, busy) =>
      if k < |closers| {
        BeginKeepsAccounted(drains, s, closers[k]);
        NoteKeepsAccounted(drains, s, closers[k], ok);
      }
    case Finished =>
  }

  // ----------------------------------------------------------- the phase order

  /** The phase the main goroutine is in. */
  function Phase(closers: seq<Op>, pc: Pc): nat {
    match pc
    case Start(k) => if k < 4 then k else 4
    case BeforeStop => 4
    case Stopping => 4
    case Launching => 5
    case Collecting => 5
    case Closing(k, _) => if k < |closers| then Rank(closers[k]) else 11
    case Finished => 11
  }

  ghost predicate Phased(closers: seq<Op>, s: State) {
    && Ordered(s.log)
    && forall i | 0 <= i < |s.log| :: Rank(s.log[i].op) <= Phase(closers, s.pc)
  }

  /** The closers come after the drains, each later than the one before. */
  ghost predicate Ascending(closers: seq<Op>) {
    && (forall i | 0 <= i < |closers| :: 5 < Rank(closers[i]) < 11)
    && (forall i, j | 0 <= i < j < |closers| :: Rank(closers[i]) < Rank(closers[j]))
  }

  lemma LogKeepsPhased(closers: seq<Op>, s: State, e: Event)
    requires Phased(closers, s) && Rank(e.op) == Phase(closers, s.pc)
    ensures Phased(closers, Log(s, e))
  {
  }

  lemma DrainKeepsPhased(drains: seq<Op>, closers: seq<Op>, s: State, j: nat, ok: bool)
    requires Counted(drains, closers, s) && Phased(closers, s) && j < |s.jobs|
    requires forall i | 0 <= i < |drains| :: Rank(drains[i]) == 5
    ensures Phased(closers, StepDrain(drains, s, j, ok))
  {
    if Collected(s.pc) {
      ClosingAfterReports(drains, closers, s, j);
    } else {
      LogKeepsPhased(closers, s, Begin(drains[j]));
      LogKeepsPhased(closers, s, End(drains[j], ok));
    }
  }

  /** The phase may move on. */
  lemma AdvanceKeepsPhased(closers: seq<Op>, s: State, s': State)
    requires Phased(closers, s) && s'.log == s.log && Phase(closers, s.pc) <= Phase(closers, s'.pc)
    ensures Phased(closers, s')
  {
  }

  lemma StartKeepsPhased(app: App, closers: seq<Op>, s: State, k: nat, ok: bool)
    requires Phased(closers, s) && s.pc == Start(k) && k < |STARTS|
    ensures Phased(closers, StepStart(app, s, k, ok))
  {
    var logged := if Present(app, STARTS[k]) then Log(s, End(STARTS[k], ok)) else s;
    LogKeepsPhased(closers, s, End(STARTS[k], ok));
    AdvanceKeepsPhased(closers, logged, StepStart(app, s, k, ok));
  }

  lemma MainKeepsPhased(app: App, drains: seq<Op>, closers: seq<Op>, s: State, ok: bool)
    requires Counted(drains, closers, s) && Phased(closers, s) && Ascending(closers)
    ensures Phased(closers, StepMain(app, drains, closers, s, ok))
  {
    var s' := StepMain(app, drains, closers, s, ok);
    match s.pc
    case Start(k) => StartKeepsPhased(app, closers, s, k, ok);
    case BeforeStop =>
      LogKeepsPhased(closers, s, Begin(StopWorker));
      AdvanceKeepsPhased(closers, if s'.pc.Stopping? then Log(s, Begin(StopWorker)) else s, s');
    case Stopping =>
      LogKeepsPhased(closers, s, End(StopWorker, ok));
      AdvanceKeepsPhased(closers, Log(s, End(StopWorker, ok)), s');
    case Closing(k, busy) =>
      if k < |closers| {
        var e := if busy then End(closers[k], ok) else Begin(closers[k]);
        LogKeepsPhased(closers, s, e);
        AdvanceKeepsPhased(closers, Log(s, e), s');
      } else {
        AdvanceKeepsPhased(closers, s, s');
      }
    case _ => AdvanceKeepsPhased(closers, s, s');
  }

  // -------------------------------------------------------- everything once

  /** How far one call has come: not begun, begun, ended. */
  ghost predicate Shape(trace: seq<Event>, op: Op, n: nat) {
    match n
    case 0 => trace == []
    case 1 => trace == [Begin(op)]
    case _ => exists ok :: trace == [Begin(op), End(op, ok)]
  }

  function StopProgress(stops: bool, pc: Pc): nat {
    if pc.Start? || pc.BeforeStop? then 0 else if pc.Stopping? then 1 else if stops then 2 else 0
  }

  function JobProgress(jobs: seq<Job>, j: nat): nat {
    if j >= |jobs| || jobs[j].Launched? then 0 else if jobs[j].Running? then 1 else 2
  }

  function CloserProgress(pc: Pc, i: nat): nat {
    match pc
    case Closing(k, busy) => if i < k then 2 else if i == k && busy then 1 else 0
    case Finished => 2
    case _ => 0
  }

  predicate IsStart(op: Op) {
    op == StartAccess || op == StartWorker || op == StartScheduler || op == Serve
  }

  /** How far the main goroutine and the drains have come with one operation of the shutdown. */
  function Progress(drains: seq<Op>, closers: seq<Op>, stops: bool, s: State, op: Op): nat {
    if op == StopWorker then StopProgress(stops, s.pc)
    else if op in drains then JobProgress(s.jobs, FirstIndex(drains, op))
    else if op in closers then CloserProgress(s.pc, FirstIndex(closers, op))
    else 0
  }

  /** The log shows every operation of the shutdown exactly as far as it has come, and nothing of any
      component that is not there. */
  ghost predicate Traced(drains: seq<Op>, closers: seq<Op>, stops: bool, s: State) {
    forall op | !IsStart(op) :: Shape(Trace(s.log, op), op, Progress(drains, closers, stops, s, op))
  }

  /** Drains and closers are different operations, none of them twice. */
  ghost predicate Separate(drains: seq<Op>, closers: seq<Op>) {
    && (forall i, j | 0 <= i < j < |drains| :: drains[i] != drains[j])
    && (forall i, j | 0 <= i < j < |closers| :: closers[i] != closers[j])
    && (forall op | op in drains :: op !in closers && !IsStart(op) && op != StopWorker)
    && (forall op | op in closers :: !IsStart(op) && op != StopWorker)
  }

  lemma FirstIndexAt(ops: seq<Op>, k: nat)
    requires k < |ops| && forall i, j | 0 <= i < j < |ops| :: ops[i] != ops[j]
    ensures ops[k] in ops && FirstIndex(ops, ops[k]) == k
  {
  }

  /** One operation moves on by the event logged, all others stay where they are. */
  lemma LogKeepsTraced(drains: seq<Op>, closers: seq<Op>, stops: bool, s: State, s': State, e: Event)
    requires Traced(drains, closers, stops, s) && s'.log == s.log + [e]
    requires forall op | !IsStart(op) && op != e.op ::
      Progress(drains, closers, stops, s', op) == Progress(drains, closers, stops, s, op)
    requires IsStart(e.op)
      || (e.Begin? && Progress(drains, closers, stops, s, e.op) == 0 && Progress(drains, closers, stops, s', e.op) == 1)
      || (e.End? && Progress(drains, closers, stops, s, e.op) == 1 && Progress(drains, closers, stops, s', e.op) == 2)
    ensures Traced(drains, closers, stops, s')
  {
    forall op | !IsStart(op)
      ensures Shape(Trace(s'.log, op), op, Progress(drains, closers, stops, s', op))
    {
      TraceAppend(s.log, e, op);
      assert Shape(Trace(s.log, op), op, Progress(drains, closers, stops, s, op));
    }
  }

  /** A step that logs nothing and moves no operation. */
  lemma QuietKeepsTraced(drains: seq<Op>, closers: seq<Op>, stops: bool, s: State, s': State)
    requires Traced(drains, closers, stops, s) && s'.log == s.log
    requires forall op | !IsStart(op) ::
      Progress(drains, closers, stops, s', op) == Progress(drains, closers, stops, s, op)
    ensures Traced(drains, closers, stops, s')
  {
  }

  /** A drain goroutine's step concerns its own operation only. */
  lemma DrainMovesOne(drains: seq<Op>, closers: seq<Op>, stops: bool, s: State, s': State, j: nat)
    requires Separate(drains, closers) && j < |s.jobs| <= |drains|
    requires s'.pc == s.pc && |s'.jobs| == |s.jobs| && forall i | 0 <= i < |s.jobs| && i != j :: s'.jobs[i] == s.jobs[i]
    ensures forall op | op != drains[j] :: Progress(drains, closers, stops, s', op) == Progress(drains, closers, stops, s, op)
    ensures Progress(drains, closers, stops, s, drains[j]) == JobProgress(s.jobs, j)
    ensures Progress(drains, closers, stops, s', drains[j]) == JobProgress(s'.jobs, j)
  {
    FirstIndexAt(drains, j);
  }

  lemma DrainKeepsTraced(drains: seq<Op>, closers: seq<Op>, stops: bool, s: State, j: nat, ok: bool)
    requires Separate(drains, closers) && Traced(drains, closers, stops, s) && j < |s.jobs| <= |drains|
    ensures Traced(drains, closers, stops, StepDrain(drains, s, j, ok))
  {
    var s' := StepDrain(drains, s, j, ok);
    DrainMovesOne(drains, closers, stops, s, s', j);
    match s.jobs[j]
    case Launched => LogKeepsTraced(drains, closers, stops, s, s', Begin(drains[j]));
    case Running => LogKeepsTraced(drains, closers, stops, s, s', End(drains[j], ok));
    case _ => QuietKeepsTraced(drains, closers, stops, s, s');
  }

  lemma CloseKeepsTraced(drains: seq<Op>, closers: seq<Op>, stops: bool, s: State, s': State, k: nat, ok: bool)
    requires Separate(drains, closers) && Traced(drains, closers, stops, s) && k < |closers|
    requires s'.jobs == s.jobs
    requires
      || (s.pc == Closing(k, false) && s'.pc == Closing(k, true) && s'.log == s.log + [Begin(closers[k])])
      || (s.pc == Closing(k, true) && s'.pc == Closing(k + 1, false) && s'.log == s.log + [End(closers[k], ok)])
    ensures Traced(drains, closers, stops, s')
  {
    FirstIndexAt(closers, k);
    forall op | !IsStart(op) && op != closers[k]
      ensures Progress(drains, closers, stops, s', op) == Progress(drains, closers, stops, s, op)
    {
    }
    LogKeepsTraced(drains, closers, stops, s, s', if s'.pc.busy then Begin(closers[k]) else End(closers[k], ok));
  }

  /** Steps of the start phase and of the worker stop. */
  lemma EarlyKeepsTraced(app: App, drains: seq<Op>, closers: seq<Op>, stops: bool, s: State, ok: bool)
    requires Traced(drains, closers, stops, s) && Counted(drains, closers, s)
    requires s.pc.Start? || s.pc.BeforeStop? || s.pc.Stopping?
    requires s.pc.BeforeStop? ==> stops == (app.worker && s.workerStarted)
    requires s.pc.Stopping? ==> stops
    ensures Traced(drains, closers, stops, StepMain(app, drains, closers, s, ok))
  {
    var s' := StepMain(app, drains, closers, s, ok);
    if s.pc.Start? {
      if Present(app, STARTS[s.pc.k]) {
        assert IsStart(STARTS[s.pc.k]);
        LogKeepsTraced(drains, closers, stops, s, s', End(STARTS[s.pc.k], ok));
      } else {
        QuietKeepsTraced(drains, closers, stops, s, s');
      }
    } else if s.pc.Stopping? {
      LogKeepsTraced(drains, closers, stops, s, s', End(StopWorker, ok));
    } else if stops {
      LogKeepsTraced(drains, closers, stops, s, s', Begin(StopWorker));
    } else {
      QuietKeepsTraced(drains, closers, stops, s, s');
    }
  }

  /** Launching a goroutine, collecting a result, and the ends of these phases. */
  lemma MiddleKeepsTraced(drains: seq<Op>, closers: seq<Op>, stops: bool, s: State, s': State)
    requires Traced(drains, closers, stops, s) && s'.log == s.log
    requires s.pc.Launching? || s.pc.Collecting?
    requires s'.pc == s.pc || s'.pc == Collecting || s'.pc == Closing(0, false)
    requires s'.jobs == s.jobs || s'.jobs == s.jobs + [Launched]
    ensures Traced(drains, closers, stops, s')
  {
    forall j: nat
      ensures JobProgress(s'.jobs, j) == JobProgress(s.jobs, j)
    {
    }
    QuietKeepsTraced(drains, closers, stops, s, s');
  }

  lemma FinishKeepsTraced(drains: seq<Op>, closers: seq<Op>, stops: bool, s: State)
    requires Traced(drains, closers, stops, s) && s.pc == Closing(|closers|, false)
    ensures Traced(drains, closers, stops, s.(pc := Finished))
  {
    QuietKeepsTraced(drains, closers, stops, s, s.(pc := Finished));
  }

  lemma MainKeepsTraced(app: App, drains: seq<Op>, closers: seq<Op>, stops: bool, s: State, ok: bool)
    requires Separate(drains, closers) && Counted(drains, closers, s) && Traced(drains, closers, stops, s)
    requires s.pc.BeforeStop? ==> stops == (app.worker && s.workerStarted)
    requires s.pc.Stopping? ==> stops
    ensures Traced(drains, closers, stops, StepMain(app, drains, closers, s, ok))
  {
    if s.pc.Closing? {
      if s.pc.k < |closers| {
        CloseKeepsTraced(drains, closers, stops, s, StepMain(app, drains, closers, s, ok), s.pc.k, ok);
      } else {
        FinishKeepsTraced(drains, closers, stops, s);
      }
    } else if s.pc.Launching? || s.pc.Collecting? {
      MiddleKeepsTraced(drains, closers, stops, s, StepMain(app, drains, closers, s, ok));
    } else if !s.pc.Finished? {
      EarlyKeepsTraced(app, drains, closers, stops, s, ok);
    }
  }

  // ------------------------------------------------------------- every run

  predicate Stops(app: App, s: State) {
    app.worker && s.workerStarted
  }

  /** The flags say which Start calls succeeded. */
  ghost predicate Truthful(s: State) {
    && (s.workerStarted <==> End(StartWorker, true) in s.log)
    && (s.schedulerStarted <==> End(StartScheduler, true) in s.log)
  }

  ghost predicate InvFor(drains: seq<Op>, closers: seq<Op>, stops: bool, s: State) {
    && Counted(drains, closers, s) && Accounted(drains, s) && Phased(closers, s) && Traced(drains, closers, stops, s)
    && Truthful(s) && (s.pc.Stopping? ==> stops)
  }

  ghost predicate Inv(app: App, s: State) {
    InvFor(Drains(app, s), Closers(app), Stops(app, s), s)
  }

  lemma DrainList(app: App, s: State)
    ensures InPlace(Drains(app, s))
    ensures forall i | 0 <= i < |Drains(app, s)| :: Rank(Drains(app, s)[i]) == 5
    ensures forall op :: op in Drains(app, s) <==> Rank(op) == 5 && Wanted(app, s, op)
  {
    SelectMeans(app, s, ALL_DRAINS);
    var drains := Drains(app, s);
    forall op
      ensures op in drains <==> Rank(op) == 5 && Wanted(app, s, op)
    {
      AllListed(op);
    }
    assert forall i | 0 <= i < |drains| :: drains[i] in drains;
  }

  lemma CloserList(app: App)
    ensures Ascending(Closers(app))
    ensures forall op :: op in Closers(app) <==> Rank(op) > 5 && Present(app, op)
  {
    SelectMeans(app, Init(), ALL_CLOSERS);
    var closers := Closers(app);
    forall op
      ensures op in closers <==> Rank(op) > 5 && Present(app, op)
    {
      AllListed(op);
    }
    forall i | 0 <= i < |closers|
      ensures 5 < Rank(closers[i]) < 11 && Rank(closers[i]) + 2 == Place(closers[i])
    {
      assert closers[i] in closers;
    }
  }

  lemma Lists(app: App, s: State)
    ensures Separate(Drains(app, s), Closers(app)) && Ascending(Closers(app))
    ensures forall i | 0 <= i < |Drains(app, s)| :: Rank(Drains(app, s)[i]) == 5
  {
    DrainList(app, s);
    CloserList(app);
  }

  lemma AllListed(op: Op)
    ensures op in ALL_DRAINS <==> Rank(op) == 5
    ensures op in ALL_CLOSERS <==> Rank(op) > 5
  {
  }

  /** Before the drains are launched it does not matter which ones there will be. */
  lemma EarlyAnyDrains(drains: seq<Op>, drains': seq<Op>, closers: seq<Op>, stops: bool, stops': bool, s: State)
    requires InvFor(drains, closers, stops, s) && (s.pc.Start? || s.pc.BeforeStop?)
    ensures InvFor(drains', closers, stops', s)
  {
    forall op | !IsStart(op)
      ensures Shape(Trace(s.log, op), op, Progress(drains', closers, stops', s, op))
    {
      assert Shape(Trace(s.log, op), op, Progress(drains, closers, stops, s, op));
    }
    forall op
      ensures Unsent(s.jobs, drains', op) == 0
    {
    }
    assert Accounted(drains', s);
  }

  lemma LogTruthful(s: State, s': State, e: Event)
    requires Truthful(s) && s'.log == s.log + [e] && !IsStart(e.op)
    requires s'.workerStarted == s.workerStarted && s'.schedulerStarted == s.schedulerStarted
    ensures Truthful(s')
  {
  }

  lemma DrainKeepsInv(drains: seq<Op>, closers: seq<Op>, stops: bool, s: State, j: nat, ok: bool)
    requires Separate(drains, closers) && (forall i | 0 <= i < |drains| :: Rank(drains[i]) == 5)
    requires InvFor(drains, closers, stops, s) && j < |s.jobs|
    ensures InvFor(drains, closers, stops, StepDrain(drains, s, j, ok))
  {
    var s' := StepDrain(drains, s, j, ok);
    DrainKeepsCounted(drains, closers, s, j, ok);
    DrainKeepsAccounted(drains, s, j, ok);
    DrainKeepsPhased(drains, closers, s, j, ok);
    DrainKeepsTraced(drains, closers, stops, s, j, ok);
    assert Rank(drains[j]) == 5;
    if s.jobs[j].Launched? {
      LogTruthful(s, s', Begin(drains[j]));
    } else if s.jobs[j].Running? {
      LogTruthful(s, s', End(drains[j], ok));
    }
  }

  lemma StartTruthful(app: App, s: State, k: nat, ok: bool)
    requires Truthful(s) && k < |STARTS|
    ensures Truthful(StepStart(app, s, k, ok))
  {
    var s' := StepStart(app, s, k, ok);
    if Present(app, STARTS[k]) {
      assert s'.log == s.log + [End(STARTS[k], ok)];
    }
  }

  lemma MainTruthful(app: App, drains: seq<Op>, closers: seq<Op>, s: State, ok: bool)
    requires Truthful(s) && Ascending(closers)
    ensures Truthful(StepMain(app, drains, closers, s, ok))
  {
    var s' := StepMain(app, drains, closers, s, ok);
    match s.pc
    case Start(k) => if k < |STARTS| { StartTruthful(app, s, k, ok); }
    case BeforeStop => if s'.log != s.log { LogTruthful(s, s', Begin(StopWorker)); }
    case Stopping => LogTruthful(s, s', End(StopWorker, ok));
    case Closing(k, busy) =>
      if k < |closers| {
        assert 5 < Rank(closers[k]);
        LogTruthful(s, s', if busy then End(closers[k], ok) else Begin(closers[k]));
      }
    case _ =>
  }

  lemma MainKeepsInv(app: App, drains: seq<Op>, closers: seq<Op>, stops: bool, s: State, ok: bool)
    requires Separate(drains, closers) && Ascending(closers) && InvFor(drains, closers, stops, s)
    requires s.pc.BeforeStop? ==> stops == Stops(app, s)
    ensures InvFor(drains, closers, stops, StepMain(app, drains, closers, s, ok))
  {
    MainKeepsCounted(app, drains, closers, s, ok);
    MainKeepsAccounted(app, drains, closers, s, ok);
    MainKeepsPhased(app, drains, closers, s, ok);
    MainKeepsTraced(app, drains, closers, stops, s, ok);
    MainTruthful(app, drains, closers, s, ok);
  }

  /** Outside the start phase the flags, and with them the lists, stay. */
  lemma MainKeepsFlags(app: App, drains: seq<Op>, closers: seq<Op>, s: State, ok: bool)
    ensures var s' := StepMain(app, drains, closers, s, ok);
      if s.pc.Start? then s'.pc.Start? || s'.pc.BeforeStop?
      else s'.workerStarted == s.workerStarted && s'.schedulerStarted == s.schedulerStarted
  {
  }

  lemma MainStepKeepsInv(app: App, s: State, ok: bool)
    requires Inv(app, s)
    ensures Inv(app, Apply(app, s, Main(ok)))
  {
    var drains, closers, stops := Drains(app, s), Closers(app), Stops(app, s);
    Lists(app, s);
    MainKeepsInv(app, drains, closers, stops, s, ok);
    MainKeepsFlags(app, drains, closers, s, ok);
    var s' := StepMain(app, drains, closers, s, ok);
    if s.pc.Start? {
      EarlyAnyDrains(drains, Drains(app, s'), closers, stops, Stops(app, s'), s');
    } else {
      SelectStable(app, s, s', ALL_DRAINS);
    }
  }

  lemma DrainStepKeepsInv(app: App, s: State, j: nat, ok: bool)
    requires Inv(app, s) && j < |s.jobs|
    ensures Inv(app, Apply(app, s, Drain(j, ok)))
  {
    Lists(app, s);
    DrainKeepsInv(Drains(app, s), Closers(app), Stops(app, s), s, j, ok);
    SelectStable(app, s, StepDrain(Drains(app, s), s, j, ok), ALL_DRAINS);
  }

  lemma ApplyKeepsInv(app: App, s: State, step: Step)
    requires Inv(app, s)
    ensures Inv(app, Apply(app, s, step))
  {
    match step
    case Main(ok) => MainStepKeepsInv(app, s, ok);
    case Drain(j, ok) =>
      if j < |s.jobs| {
        DrainStepKeepsInv(app, s, j, ok);
      }
  }

  lemma {:induction false} ExecKeepsInv(app: App, s: State, steps: seq<Step>)
    requires Inv(app, s)
    ensures Inv(app, Exec(app, s, steps))
    decreases |steps|
  {
    if steps != [] {
      ApplyKeepsInv(app, s, steps[0]);
      ExecKeepsInv(app, Apply(app, s, steps[0]), steps[1..]);
    }
  }

  lemma InitInv(app: App)
    ensures Inv(app, Init())
  {
  }

  // ------------------------------------------------------- what was started

  /** Nothing is started after a start that failed. */
  ghost predicate NoStartAfterFailure(log: seq<Event>) {
    forall i, j | 0 <= i < j < |log| && log[i].End? && !log[i].ok && IsStart(log[i].op) :: !IsStart(log[j].op)
  }

  /** No start call before this one has failed. */
  ghost predicate Unhindered(log: seq<Event>, op: Op) {
    forall a | IsStart(a) && Rank(a) < Rank(op) :: End(a, false) !in log
  }

  /** One start call, which has returned, if it was due; none otherwise. */
  ghost predicate StartedIf(log: seq<Event>, op: Op, due: bool) {
    if due then exists ok :: Trace(log, op) == [End(op, ok)] else Trace(log, op) == []
  }

  predicate Tried(pc: Pc, op: Op) {
    pc.Start? ==> Rank(op) < pc.k
  }

  ghost predicate Begun(app: App, s: State) {
    && (forall op | IsStart(op) :: StartedIf(s.log, op, Tried(s.pc, op) && Present(app, op) && Unhindered(s.log, op)))
    && (s.pc.Start? ==> s.pc.k < |STARTS| && forall op | IsStart(op) :: End(op, false) !in s.log)
    && NoStartAfterFailure(s.log)
  }

  lemma StartRank(k: nat)
    requires k < |STARTS|
    ensures IsStart(STARTS[k]) && Rank(STARTS[k]) == k
    ensures forall op | IsStart(op) && Rank(op) == k :: op == STARTS[k]
    ensures |STARTS| == 4 && forall op | IsStart(op) :: Rank(op) < 4
  {
  }

  /** The start call that is made in this step, and what that means for each start call. */
  lemma CallBegun(app: App, s: State, k: nat, ok: bool, op: Op)
    requires Begun(app, s) && s.pc == Start(k) && k < |STARTS| && Present(app, STARTS[k]) && IsStart(op)
    ensures var s' := StepStart(app, s, k, ok);
      StartedIf(s'.log, op, Tried(s'.pc, op) && Present(app, op) && Unhindered(s'.log, op))
  {
    var s', e := StepStart(app, s, k, ok), End(STARTS[k], ok);
    StartRank(k);
    assert s'.log == s.log + [e];
    TraceAppend(s.log, e, op);
    assert StartedIf(s.log, op, Tried(s.pc, op) && Present(app, op) && Unhindered(s.log, op));
    assert Unhindered(s.log, op);
    if !ok && Rank(op) > k {
      assert e in s'.log;
    }
    if op == STARTS[k] {
      assert [] + [e] == [e];
    }
  }

  lemma NothingFailedYet(log: seq<Event>, e: Event)
    requires forall op | IsStart(op) :: End(op, false) !in log
    ensures NoStartAfterFailure(log + [e])
  {
    forall i | 0 <= i < |log| && log[i].End? && IsStart(log[i].op)
      ensures log[i].ok
    {
      assert log[i] in log;
    }
  }

  lemma StartKeepsBegun(app: App, s: State, k: nat, ok: bool)
    requires Begun(app, s) && s.pc == Start(k) && k < |STARTS|
    ensures Begun(app, StepStart(app, s, k, ok))
  {
    var s' := StepStart(app, s, k, ok);
    StartRank(k);
    if Present(app, STARTS[k]) {
      assert s'.log == s.log + [End(STARTS[k], ok)];
      forall op | IsStart(op)
        ensures StartedIf(s'.log, op, Tried(s'.pc, op) && Present(app, op) && Unhindered(s'.log, op))
      {
        CallBegun(app, s, k, ok, op);
      }
      NothingFailedYet(s.log, End(STARTS[k], ok));
    } else {
      forall op | IsStart(op)
        ensures StartedIf(s'.log, op, Tried(s'.pc, op) && Present(app, op) && Unhindered(s'.log, op))
      {
        assert StartedIf(s.log, op, Tried(s.pc, op) && Present(app, op) && Unhindered(s.log, op));
      }
    }
  }

  /** Past the start phase only other operations are logged. */
  lemma LaterKeepsBegun(app: App, s: State, s': State, e: Event)
    requires Begun(app, s) && !s.pc.Start? && !s'.pc.Start? && !IsStart(e.op)
    requires s'.log == s.log || s'.log == s.log + [e]
    ensures Begun(app, s')
  {
    forall op | IsStart(op)
      ensures StartedIf(s'.log, op, Present(app, op) && Unhindered(s'.log, op))
    {
      assert StartedIf(s.log, op, Tried(s.pc, op) && Present(app, op) && Unhindered(s.log, op));
      TraceAppend(s.log, e, op);
      assert Unhindered(s'.log, op) <==> Unhindered(s.log, op);
    }
  }

  lemma MainKeepsBegun(app: App, s: State, ok: bool)
    requires Inv(app, s) && Begun(app, s)
    ensures Begun(app, Apply(app, s, Main(ok)))
  {
    var closers, s' := Closers(app), Apply(app, s, Main(ok));
    CloserList(app);
    match s.pc
    case Start(k) => StartKeepsBegun(app, s, k, ok);
    case BeforeStop => LaterKeepsBegun(app, s, s', Begin(StopWorker));
    case Stopping => LaterKeepsBegun(app, s, s', End(StopWorker, ok));
    case Closing(k, busy) =>
      if k < |closers| {
        LaterKeepsBegun(app, s, s', if busy then End(closers[k], ok) else Begin(closers[k]));
      } else {
        LaterKeepsBegun(app, s, s', Begin(StopWorker));
      }
    case _ => LaterKeepsBegun(app, s, s', Begin(StopWorker));
  }

  lemma DrainKeepsBegun(app: App, s: State, j: nat, ok: bool)
    requires Inv(app, s) && Begun(app, s)
    ensures Begun(app, Apply(app, s, Drain(j, ok)))
  {
    if j < |s.jobs| {
      var drains := Drains(app, s);
      DrainList(app, s);
      LaterKeepsBegun(app, s, StepDrain(drains, s, j, ok), if s.jobs[j].Launched? then Begin(drains[j]) else End(drains[j], ok));
    }
  }

  lemma {:induction false} ExecKeepsBegun(app: App, s: State, steps: seq<Step>)
    requires Inv(app, s) && Begun(app, s)
    ensures Inv(app, Exec(app, s, steps)) && Begun(app, Exec(app, s, steps))
    decreases |steps|
  {
    if steps != [] {
      match steps[0] {
        case Main(ok) => MainKeepsBegun(app, s, ok);
        case Drain(j, ok) => DrainKeepsBegun(app, s, j, ok);
      }
      ApplyKeepsInv(app, s, steps[0]);
      ExecKeepsBegun(app, Apply(app, s, steps[0]), steps[1..]);
    }
  }

  lemma InitBegun(app: App)
    ensures Begun(app, Init())
  {
  }

  /** What was started, on the log alone: access, worker, scheduler and server, in this order, each exactly once
      if it is there and none before it failed, and none otherwise. */
  ghost predicate StartsExactly(app: App, log: seq<Event>) {
    && StartedIf(log, StartAccess, app.access)
    && StartedIf(log, StartWorker, app.worker && End(StartAccess, false) !in log)
    && StartedIf(log, StartScheduler, app.scheduler && End(StartAccess, false) !in log && End(StartWorker, false) !in log)
    && StartedIf(log, Serve, End(StartAccess, false) !in log && End(StartWorker, false) !in log
         && End(StartScheduler, false) !in log)
  }

  lemma BegunMeans(app: App, s: State)
    requires Begun(app, s) && !s.pc.Start?
    ensures StartsExactly(app, s.log)
  {
    StartedMeans(app, s, StartAccess);
    StartedMeans(app, s, StartWorker);
    StartedMeans(app, s, StartScheduler);
    StartedMeans(app, s, Serve);
  }

  lemma StartedMeans(app: App, s: State, op: Op)
    requires Begun(app, s) && !s.pc.Start? && IsStart(op)
    ensures StartedIf(s.log, op, Present(app, op) && Unhindered(s.log, op))
    ensures op == StartAccess ==> Unhindered(s.log, op)
    ensures op == StartWorker ==> (Unhindered(s.log, op) <==> End(StartAccess, false) !in s.log)
    ensures op == StartScheduler ==>
      (Unhindered(s.log, op) <==> End(StartAccess, false) !in s.log && End(StartWorker, false) !in s.log)
    ensures op == Serve ==>
      (Unhindered(s.log, op) <==>
        (End(StartAccess, false) !in s.log && End(StartWorker, false) !in s.log && End(StartScheduler, false) !in s.log))
  {
    assert StartedIf(s.log, op, Tried(s.pc, op) && Present(app, op) && Unhindered(s.log, op));
  }

  /** In every interleaving: phases in order (start, stop, drains, then the closers one by one), no start after
      one that failed, no drain goroutine ever blocked, and no resource closed before every launched drain has reported. */
  lemma SafeInEveryInterleaving(app: App, steps: seq<Step>, s: State)
    requires s == Exec(app, Init(), steps)
    ensures Ordered(s.log) && NoStartAfterFailure(s.log)
    ensures forall j | 0 <= j < |s.jobs| && s.jobs[j].Ready? :: |s.channel| < CAPACITY
    ensures Collected(s.pc) ==> |s.jobs| == |Drains(app, s)| && forall j | 0 <= j < |s.jobs| :: s.jobs[j].Sent?
  {
    InitInv(app);
    InitBegun(app);
    ExecKeepsBegun(app, Init(), steps);
    forall j | 0 <= j < |s.jobs|
      ensures s.jobs[j].Ready? ==> |s.channel| < CAPACITY
      ensures Collected(s.pc) ==> s.jobs[j].Sent?
    {
      if s.jobs[j].Ready? {
        NeverBlocks(Drains(app, s), Closers(app), s, j);
      }
      if Collected(s.pc) {
        ClosingAfterReports(Drains(app, s), Closers(app), s, j);
      }
    }
  }

  /** At the end of every run: what is configured was started up to the first failure; a component is drained
      exactly once if it was started and never otherwise; every configured resource is closed exactly once;
      and the joined errors are exactly the failures. */
  lemma FinishedRun(app: App, steps: seq<Step>, s: State)
    requires s == Exec(app, Init(), steps) && s.pc.Finished?
    ensures StartsExactly(app, s.log)
    ensures OnceIf(s.log, DrainServer, app.server)
    ensures OnceIf(s.log, DrainWorker, app.worker && End(StartWorker, true) in s.log)
    ensures OnceIf(s.log, StopWorker, app.worker && End(StartWorker, true) in s.log)
    ensures OnceIf(s.log, DrainScheduler, app.scheduler && End(StartScheduler, true) in s.log)
    ensures OnceIf(s.log, CloseAccess, app.access) && OnceIf(s.log, CloseDB, app.db)
    ensures OnceIf(s.log, ClosePublisher, app.publisher) && OnceIf(s.log, CloseRedis, app.redis)
    ensures OnceIf(s.log, CloseLogger, app.logger)
    ensures forall op :: Joined(s.errs, op) == Failures(s.log, op)
  {
    InitInv(app);
    InitBegun(app);
    ExecKeepsBegun(app, Init(), steps);
    BegunMeans(app, s);
    FinishedDrains(app, s);
    FinishedClosers(app, s);
    NothingLeft(Drains(app, s), Closers(app), s);
  }

  lemma FinishedClosers(app: App, s: State)
    requires Inv(app, s) && s.pc.Finished?
    ensures OnceIf(s.log, CloseAccess, app.access) && OnceIf(s.log, CloseDB, app.db)
    ensures OnceIf(s.log, ClosePublisher, app.publisher) && OnceIf(s.log, CloseRedis, app.redis)
    ensures OnceIf(s.log, CloseLogger, app.logger)
  {
    FinishedOne(app, s, CloseAccess);
    FinishedOne(app, s, CloseDB);
    FinishedOne(app, s, ClosePublisher);
    FinishedOne(app, s, CloseRedis);
    FinishedOne(app, s, CloseLogger);
  }

  /** The operation was called and has returned, once, if `called`; otherwise it was not called at all. */
  ghost predicate OnceIf(log: seq<Event>, op: Op, called: bool) {
    Shape(Trace(log, op), op, if called then 2 else 0)
  }

  lemma FinishedOne(app: App, s: State, op: Op)
    requires Inv(app, s) && s.pc.Finished? && Rank(op) >= 5
    ensures OnceIf(s.log, op, Wanted(app, s, op))
  {
    var drains, closers, stops := Drains(app, s), Closers(app), Stops(app, s);
    FinalProgress(app, s, op);
    assert Shape(Trace(s.log, op), op, Progress(drains, closers, stops, s, op));
  }

  lemma FinishedDrains(app: App, s: State)
    requires Inv(app, s) && s.pc.Finished?
    ensures OnceIf(s.log, DrainServer, app.server)
    ensures OnceIf(s.log, DrainWorker, app.worker && End(StartWorker, true) in s.log)
    ensures OnceIf(s.log, StopWorker, app.worker && End(StartWorker, true) in s.log)
    ensures OnceIf(s.log, DrainScheduler, app.scheduler && End(StartScheduler, true) in s.log)
  {
    FinishedOne(app, s, DrainServer);
    FinishedOne(app, s, DrainWorker);
    FinishedOne(app, s, DrainScheduler);
    var drains, closers, stops := Drains(app, s), Closers(app), Stops(app, s);
    assert Shape(Trace(s.log, StopWorker), StopWorker, Progress(drains, closers, stops, s, StopWorker));
  }

  lemma FinalProgress(app: App, s: State, op: Op)
    requires s.pc.Finished? && Counted(Drains(app, s), Closers(app), s) && Rank(op) >= 5
    ensures Progress(Drains(app, s), Closers(app), Stops(app, s), s, op) == if Wanted(app, s, op) then 2 else 0
  {
    DrainList(app, s);
    CloserList(app);
    var drains := Drains(app, s);
    if op in drains {
      ClosingAfterReports(drains, Closers(app), s, FirstIndex(drains, op));
    }
  }

  lemma NothingLeft(drains: seq<Op>, closers: seq<Op>, s: State)
    requires s.pc.Finished? && Counted(drains, closers, s) && Accounted(drains, s)
    ensures forall op :: Joined(s.errs, op) == Failures(s.log, op)
  {
    forall j | 0 <= j < |s.jobs|
      ensures s.jobs[j].Sent?
    {
      ClosingAfterReports(drains, closers, s, j);
    }
    forall op
      ensures Unsent(s.jobs, drains, op) == 0
    {
      AllSentNoneHeld(s.jobs, drains, op);
    }
  }

  lemma {:induction false} AllSentNoneHeld(jobs: seq<Job>, drains: seq<Op>, op: Op)
    requires |jobs| <= |drains| && forall j | 0 <= j < |jobs| :: jobs[j].Sent?
    ensures Unsent(jobs, drains, op) == 0
  {
    if jobs != [] {
      AllSentNoneHeld(jobs[..|jobs| - 1], drains, op);
    }
  }

  // --------------------------------------------------------- always an end

  function PhasesLeft(pc: Pc): nat {
    match pc
    case Start(k) => if k < 4 then 10 - k else 6
    case BeforeStop => 5
    case Stopping => 4
    case Launching => 3
    case Collecting => 2
    case Closing(_, _) => 1
    case Finished => 0
  }

  function JobWork(jobs: seq<Job>): nat {
    if jobs == [] then 0
    else JobWork(jobs[..|jobs| - 1]) + Work(jobs[|jobs| - 1])
  }

  function Work(job: Job): nat {
    match job
    case Launched => 3
    case Running => 2
    case Ready(_) => 1
    case Sent => 0
  }

  lemma {:induction false} JobWorkUpdate(jobs: seq<Job>, j: nat, job: Job)
    requires j < |jobs|
    ensures JobWork(jobs[j := job]) == JobWork(jobs) - Work(jobs[j]) + Work(job)
  {
    var jobs' := jobs[j := job];
    if j < |jobs| - 1 {
      JobWorkUpdate(jobs[..|jobs| - 1], j, job);
      assert jobs'[..|jobs| - 1] == jobs[..|jobs| - 1][j := job];
    } else {
      assert jobs'[..|jobs| - 1] == jobs[..|jobs| - 1];
    }
  }

  function ClosesLeft(n: nat, pc: Pc): nat {
    match pc
    case Closing(k, busy) => if k >= n then 0 else 2 * (n - k) - (if busy then 1 else 0)
    case Finished => 0
    case _ => 2 * n
  }

  /** What is left to do; `n` is the number of closers. */
  function Measure(drains: nat, n: nat, s: State): int {
    PhasesLeft(s.pc) + 4 * (drains - |s.jobs|) + JobWork(s.jobs) + (drains - s.received) + ClosesLeft(n, s.pc)
  }

  /** Every step that does anything leaves less to do. */
  lemma MainDecreases(app: App, drains: seq<Op>, closers: seq<Op>, s: State, ok: bool)
    requires Counted(drains, closers, s) && StepMain(app, drains, closers, s, ok) != s
    ensures Measure(CAPACITY, |closers|, StepMain(app, drains, closers, s, ok)) < Measure(CAPACITY, |closers|, s)
  {
    if s.pc.Launching? && |s.jobs| < |drains| {
      JobWorkPush(s.jobs, Launched);
    } else if s.pc.Collecting? && s.received < |s.jobs| {
      assert StepMain(app, drains, closers, s, ok).received == s.received + 1;
    } else {
      PhaseDecreases(app, drains, closers, s, ok);
    }
  }

  /** The steps that only move the main goroutine on. */
  lemma PhaseDecreases(app: App, drains: seq<Op>, closers: seq<Op>, s: State, ok: bool)
    requires Counted(drains, closers, s) && !s.pc.Finished?
    requires s.pc.Launching? ==> |s.jobs| >= |drains|
    requires s.pc.Collecting? ==> s.received >= |s.jobs|
    ensures var s' := StepMain(app, drains, closers, s, ok);
      && s'.jobs == s.jobs && s'.received == s.received
      && PhasesLeft(s'.pc) + ClosesLeft(|closers|, s'.pc) < PhasesLeft(s.pc) + ClosesLeft(|closers|, s.pc)
  {
  }

  lemma JobWorkPush(jobs: seq<Job>, job: Job)
    ensures JobWork(jobs + [job]) == JobWork(jobs) + Work(job)
  {
    var longer := jobs + [job];
    assert longer[..|longer| - 1] == jobs && longer[|longer| - 1] == job;
  }

  /** A goroutine only moves on. */
  lemma DrainAdvances(drains: seq<Op>, s: State, j: nat, ok: bool)
    requires j < |s.jobs| && StepDrain(drains, s, j, ok) != s
    ensures var s' := StepDrain(drains, s, j, ok);
      && |s'.jobs| == |s.jobs| && s'.jobs == s.jobs[j := s'.jobs[j]] && Work(s'.jobs[j]) < Work(s.jobs[j])
      && s'.pc == s.pc && s'.received == s.received
  {
  }

  lemma DrainDecreases(drains: seq<Op>, closers: seq<Op>, s: State, j: nat, ok: bool)
    requires j < |s.jobs| && StepDrain(drains, s, j, ok) != s
    ensures Measure(CAPACITY, |closers|, StepDrain(drains, s, j, ok)) < Measure(CAPACITY, |closers|, s)
  {
    DrainAdvances(drains, s, j, ok);
    JobWorkUpdate(s.jobs, j, StepDrain(drains, s, j, ok).jobs[j]);
  }

  lemma StepDecreases(app: App, s: State, step: Step)
    requires Inv(app, s) && Apply(app, s, step) != s
    ensures Measure(CAPACITY, |Closers(app)|, Apply(app, s, step)) < Measure(CAPACITY, |Closers(app)|, s)
  {
    match step
    case Main(ok) => MainDecreases(app, Drains(app, s), Closers(app), s, ok);
    case Drain(j, ok) => DrainDecreases(Drains(app, s), Closers(app), s, j, ok);
  }

  lemma MeasureNatural(drains: seq<Op>, closers: seq<Op>, s: State)
    requires Counted(drains, closers, s) && |drains| <= CAPACITY
    ensures Measure(CAPACITY, |closers|, s) >= 0
  {
  }

  lemma {:induction false} SomeUnsent(jobs: seq<Job>) returns (j: nat)
    requires CountSent(jobs) < |jobs|
    ensures j < |jobs| && !jobs[j].Sent?
  {
    if jobs[|jobs| - 1].Sent? {
      j := SomeUnsent(jobs[..|jobs| - 1]);
    } else {
      j := |jobs| - 1;
    }
  }

  /** Until the end some goroutine can always go on: no deadlock. */
  lemma AlwaysProgress(drains: seq<Op>, closers: seq<Op>, app: App, s: State) returns (step: Step)
    requires Counted(drains, closers, s) && |drains| <= CAPACITY && !s.pc.Finished?
    ensures match step
      case Main(ok) => StepMain(app, drains, closers, s, ok) != s
      case Drain(j, ok) => j < |s.jobs| && StepDrain(drains, s, j, ok) != s
  {
    if s.pc.Collecting? && s.received < |s.jobs| && s.channel == [] {
      var j := SomeUnsent(s.jobs);
      var s' := StepDrain(drains, s, j, true);
      assert s'.jobs[j] != s.jobs[j];
      step := Drain(j, true);
    } else {
      var s' := StepMain(app, drains, closers, s, true);
      if s.pc.Launching? && |s.jobs| < |drains| {
        assert |s'.jobs| != |s.jobs|;
      } else if s.pc.Collecting? && s.received < |s.jobs| {
        assert s'.received != s.received;
      } else {
        assert s'.pc != s.pc;
      }
      step := Main(true);
    }
  }

  /** A run in which every step does something. */
  ghost predicate Busy(app: App, s: State, steps: seq<Step>)
    decreases |steps|
  {
    steps != [] ==> Apply(app, s, steps[0]) != s && Busy(app, Apply(app, s, steps[0]), steps[1..])
  }

  /** Every interleaving ends: a run has at most as many effective steps as there is work, and while the
      shutdown is not finished there is a next one. */
  lemma {:induction false} EveryRunEnds(app: App, s: State, steps: seq<Step>)
    requires Inv(app, s) && Busy(app, s, steps)
    ensures |steps| <= Measure(CAPACITY, |Closers(app)|, s)
    ensures !Exec(app, s, steps).pc.Finished? ==> exists step :: Busy(app, Exec(app, s, steps), [step])
    decreases |steps|
  {
    MeasureNatural(Drains(app, s), Closers(app), s);
    if steps == [] {
      if !s.pc.Finished? {
        var step := AlwaysProgress(Drains(app, s), Closers(app), app, s);
        assert Apply(app, s, step) != s;
        assert [step][1..] == [];
        assert Busy(app, s, [step]);
      }
    } else {
      StepDecreases(app, s, steps[0]);
      ApplyKeepsInv(app, s, steps[0]);
      EveryRunEnds(app, Apply(app, s, steps[0]), steps[1..]);
    }
  }
}
