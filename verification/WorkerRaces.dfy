/**
 The Job worker racing with Cancel, yield, interactive work, shutdown and crashes. A step is one
 transaction, one critical section of the service, or one read or write of a flag. Any
 transaction of the worker may fail, leaving the table as it was.
 */
module WorkerRaces {
  import opened Wrappers
  import opened JobTable
  import JobDeque

  datatype Pc =
    | Booting       // before the restart sweep
    | Idle          // in Run's loop
    | WantSlot      // in Acquire
    | HasSlot       // about to probe Yielding
    | Claiming      // about to claim
    | Claimed       // the job is RUNNING; startRun not called yet
    | Registered    // startRun done
    | Generating    // monitor spawned, Generate running
    | Answered      // Generate returned text
    | AskCanceled   // Generate returned an error: the four questions, in order
    | AskShutdown
    | AskYield
    | AskPreempted
    | Requeueing
    | Charging
    | Ending        // deferred endRun, cancel and Release
  {
    predicate InRun() {
      this in {Claimed, Registered, Generating, Answered, AskCanceled, AskShutdown, AskYield, AskPreempted, Requeueing, Charging, Ending}
    }

    predicate PastGenerate() {
      this in {AskCanceled, AskShutdown, AskYield, AskPreempted, Requeueing, Charging, Ending}
    }

    predicate HoldsSlot() {
      InRun() || this == HasSlot || this == Claiming
    }
  }

  datatype Monitor = Asleep | Watching | AboutToCancel

  /**
   One run of one job. The last three record when Generate failed, whether there was a reason to
   abort it by then, and whether that reason was interactive work.
   */
  datatype JobRun = JobRun(
    id: Id, ctx: nat, start: int, ctxCancelled: bool, preempted: bool, monitor: Monitor,
    failedAt: int, aborted: bool, wanted: bool)

  datatype Sys = Sys(
    t: Table,
    used: set<Id>,           // every id ever submitted
    pc: Pc,
    run: JobRun,
    registered: bool,        // the service's running map holds run.id
    undelivered: multiset<Id>, // Cancel calls that committed but have not looked at the running map
    epoch: nat,              // the current serve context
    yielding: bool,
    interactive: bool,       // some interactive request is queued
    shutdown: bool,
    now: int,
    quantum: int,
    maxAttempts: int,
    left: set<Id>,           // jobs whose last write failed since the last restart
    clear: bool)             // the last probe with the slot in hand saw no yield
  {
    predicate ServeDone(ctx: nat) {
      ctx < epoch || yielding
    }

    /** The job's context is done: cancelled itself, or through the worker's. */
    predicate JobCtxDone() {
      run.ctxCancelled || shutdown
    }
  }

  datatype Event =
    | Tick(d: nat)
    | SetYielding(on: bool)
    | SetInteractive(on: bool)
    | ShutDown
    | Crash
    | Recover(recs: seq<Id>)
    | Submit(id: Id, key: string, payload: string)
    | CancelCommit(id: Id)
    | CancelDeliver(id: Id)
    | Discard(dead: set<Id>)
    | Peek
    | Acquire(ok: bool)
    | ProbeHeld
    | Claim(id: Id)
    | ClaimNothing
    | StartRun
    | Spawn
    | GenerateOk
    | GenerateFails
    | WriteResult(result: string, dbOk: bool)
    | Ask(dbOk: bool)
    | Requeue(dbOk: bool)
    | Charge(msg: string, dbOk: bool)
    | End
    | MonitorSeesYield
    | MonitorPreempts
    | MonitorCancels

  ghost predicate Enabled(s: Sys, e: Event) {
    match e
    case Tick(_) => true
    case SetYielding(_) => true
    case SetInteractive(_) => true
    case ShutDown => true
    case Crash => true
    case Recover(recs) => s.pc == Booting && IsSweep(s.t, recs)
    case Submit(id, key, _) => s.pc != Booting && id !in s.used && !KeyTaken(s.t, key)
    case CancelCommit(_) => s.pc != Booting
    case CancelDeliver(id) => id in s.undelivered
    case Discard(dead) => forall id :: id in dead ==> id in s.t && s.t[id].state.Terminal()
    case Peek => s.pc == Idle && !s.yielding
    case Acquire(_) => s.pc == WantSlot
    case ProbeHeld => s.pc == HasSlot
    case Claim(id) => s.pc == Claiming && IsHead(s.t, id)
    case ClaimNothing => s.pc == Claiming
    case StartRun => s.pc == Claimed
    case Spawn => s.pc == Registered
    case GenerateOk => s.pc == Generating
    case GenerateFails => s.pc == Generating
    case WriteResult(_, _) => s.pc == Answered
    case Ask(_) => s.pc in {AskCanceled, AskShutdown, AskYield, AskPreempted}
    case Requeue(_) => s.pc == Requeueing
    case Charge(_, _) => s.pc == Charging
    case End => s.pc == Ending
    case MonitorSeesYield => s.pc.InRun() && s.run.monitor == Watching && s.ServeDone(s.run.ctx)
    case MonitorPreempts => s.pc.InRun() && s.run.monitor == Watching && s.now - s.run.start >= s.quantum && s.interactive
    case MonitorCancels => s.pc.InRun() && s.run.monitor == AboutToCancel
  }

  const NO_RUN := JobRun(0, 0, 0, false, false, Asleep, 0, false, false)

  /** runJob's switch: the first question that is answered yes decides. */
  function Answer(s: Sys, dbOk: bool): (pc: Pc) {
    match s.pc
    case AskCanceled => if dbOk && s.run.id in s.t && s.t[s.run.id].state == Canceled then Ending else AskShutdown
    case AskShutdown => if s.shutdown then Requeueing else AskYield
    case AskYield => if s.ServeDone(s.run.ctx) then Requeueing else AskPreempted
    case _ => if s.run.preempted then Requeueing else Charging
  }

  ghost function Next(s: Sys, e: Event): (s': Sys)
    requires Enabled(s, e)
  {
    match e
    case Tick(d) => s.(now := s.now + d)
    case SetYielding(on) => s.(yielding := on, epoch := if s.yielding && !on then s.epoch + 1 else s.epoch)
    case SetInteractive(on) => s.(interactive := on)
    case ShutDown => s.(shutdown := true)
    case Crash => s.(pc := Booting, run := NO_RUN, registered := false, undelivered := multiset{},
                     epoch := 0, yielding := false, interactive := false, shutdown := false)
    case Recover(recs) => s.(t := RecoverAll(s.t, recs, s.maxAttempts, s.now), pc := Idle, left := {})
    case Submit(id, key, payload) => s.(t := Insert(s.t, id, key, payload, s.now), used := s.used + {id})
    case CancelCommit(id) =>
      var t' := JobTable.Cancel(s.t, id, s.now);
      s.(t := t', undelivered := if id in t' && t'[id].state == Canceled then s.undelivered + multiset{id} else s.undelivered)
    case CancelDeliver(id) =>
      s.(undelivered := s.undelivered - multiset{id},
         run := if s.registered && s.run.id == id then s.run.(ctxCancelled := true) else s.run)
    case Discard(dead) => s.(t := Prune(s.t, dead))
    case Peek => s.(pc := WantSlot)
    case Acquire(ok) => s.(pc := if ok then HasSlot else Idle)
    case ProbeHeld => s.(pc := if s.yielding then Idle else Claiming, clear := !s.yielding)
    case Claim(id) => s.(t := JobTable.Claim(s.t, id, s.now), pc := Claimed, run := NO_RUN.(id := id))
    case ClaimNothing => s.(pc := Idle)
    case StartRun => s.(pc := Registered, registered := true)
    case Spawn => s.(pc := Generating, run := s.run.(ctx := s.epoch, start := s.now, monitor := Watching))
    case GenerateOk => s.(pc := Answered)
    case GenerateFails => s.(pc := AskCanceled,
        run := s.run.(failedAt := s.now, aborted := s.JobCtxDone() || Published(s), wanted := s.run.preempted))
    case WriteResult(result, dbOk) =>
      s.(pc := Ending, t := if dbOk then Succeed(s.t, s.run.id, result, s.now) else s.t, left := if dbOk then s.left else s.left + {s.run.id})
    case Ask(dbOk) => s.(pc := Answer(s, dbOk))
    case Requeue(dbOk) =>
      s.(pc := Ending, t := if dbOk then Preempt(s.t, s.run.id) else s.t, left := if dbOk then s.left else s.left + {s.run.id})
    case Charge(msg, dbOk) =>
      s.(pc := Ending, t := if dbOk then FailOrRetry(s.t, s.run.id, msg, s.maxAttempts, s.now) else s.t,
         left := if dbOk then s.left else s.left + {s.run.id})
    case End => s.(pc := Idle, run := NO_RUN, registered := false)
    case MonitorSeesYield => s.(run := s.run.(monitor := AboutToCancel))
    case MonitorPreempts => s.(run := s.run.(monitor := AboutToCancel, preempted := true))
    case MonitorCancels => s.(run := s.run.(ctxCancelled := true, monitor := Asleep))
  }

  ghost predicate CanRun(s: Sys, es: seq<Event>)
    decreases |es|
  {
    es == [] || (Enabled(s, es[0]) && CanRun(Next(s, es[0]), es[1..]))
  }

  ghost function Run(s: Sys, es: seq<Event>): (s': Sys)
    requires CanRun(s, es)
    decreases |es|
  {
    if es == [] then s else Run(Next(s, es[0]), es[1..])
  }

  /** A process start on the table an earlier process left. */
  function Init(t: Table, quantum: int, maxAttempts: int, now: int): (s: Sys) {
    Sys(t, t.Keys, Booting, NO_RUN, false, multiset{}, 0, false, false, false, now, quantum, maxAttempts, {}, false)
  }

  // ----- the invariant -----

  /** The job can no longer be charged: it is canceled, or already pruned. */
  predicate OutOfReach(s: Sys) {
    s.run.id !in s.t || s.t[s.run.id].state == Canceled
  }

  predicate YieldSeen(s: Sys) {
    s.pc !in {Claimed, Registered} && s.ServeDone(s.run.ctx)
  }

  /** Why the context may be done; each reason was there before the context was. */
  predicate Published(s: Sys) {
    OutOfReach(s) || s.shutdown || YieldSeen(s) || s.run.preempted
  }

  /** Which reasons are left for an aborted run that has come this far through the switch. */
  predicate Unexplained(s: Sys) {
    match s.pc
    case AskCanceled => Published(s)
    case AskShutdown => Published(s)
    case AskYield => OutOfReach(s) || YieldSeen(s) || s.run.preempted
    case AskPreempted => OutOfReach(s) || s.run.preempted
    case Charging => OutOfReach(s)
    case _ => true
  }

  ghost predicate RunOk(s: Sys) {
    s.pc.InRun() ==>
      && s.run.id in s.used && s.run.ctx <= s.epoch
      && (s.JobCtxDone() ==> Published(s))
      && (s.run.aborted ==> Unexplained(s))
      && (s.run.monitor == AboutToCancel ==> Published(s))
      && (s.run.preempted ==> s.now - s.run.start >= s.quantum)
      && (s.run.wanted ==> s.run.preempted && s.run.failedAt - s.run.start >= s.quantum)
      && (s.pc in {Claimed, Registered} ==> s.run.monitor == Asleep && !s.run.preempted && !s.run.aborted && !s.run.wanted)
      && (s.pc == Claimed ==> !s.registered)
      && (s.pc != Claimed ==> s.registered)
  }

  /** Every committed, undelivered Cancel is of a job that is canceled or gone. */
  ghost predicate CancelsOk(s: Sys) {
    forall id :: id in s.undelivered ==> id in s.used && (id !in s.t || s.t[id].state == Canceled)
  }

  /** A RUNNING job is the one the worker is on, or one whose last write failed. */
  ghost predicate RunningOk(s: Sys) {
    && (!s.pc.InRun() ==> !s.registered && s.run == NO_RUN)
    && (s.pc != Booting ==> forall id :: id in s.t && s.t[id].state == Running ==>
          id in s.left || (s.pc.InRun() && s.pc != Ending && id == s.run.id))
  }

  /** Nothing is claimed unless the probe before saw no yield. */
  predicate ClearOk(s: Sys) {
    s.pc == Claiming || s.pc.InRun() ==> s.clear
  }

  ghost predicate Inv(s: Sys) {
    s.t.Keys <= s.used && RunOk(s) && CancelsOk(s) && RunningOk(s) && ClearOk(s)
  }

  /** What one step may do to a row of the table. */
  lemma RowChanges(s: Sys, e: Event, id: Id)
    requires Enabled(s, e) && id in s.used && s.t.Keys <= s.used
    ensures var t' := Next(s, e).t;
            && t'.Keys <= Next(s, e).used && s.used <= Next(s, e).used
            && (id in t' ==> id in s.t)
            && (id in s.t && s.t[id].state == Canceled && id in t' ==> t'[id] == s.t[id])
            && (id in t' && t'[id].attempts != s.t[id].attempts ==>
                  e.Recover? || (e.Charge? && e.dbOk && id == s.run.id && s.t[id].state == Running))
  {
    if e.Recover? {
      assert forall x :: x in e.recs ==> x in s.t && s.t[x].state == Running;
      SweepCharged(s, e.recs, id);
    }
  }

  lemma SweepCharged(s: Sys, recs: seq<Id>, id: Id)
    requires IsSweep(s.t, recs)
    ensures var t' := RecoverAll(s.t, recs, s.maxAttempts, s.now);
            && t'.Keys == s.t.Keys
            && (id in s.t && id !in recs ==> t'[id] == s.t[id])
            && (id in s.t ==> t'[id].state != Running)
  {
    JobDeque.SweepCharges(s.t, recs, s.maxAttempts, s.now);
    if id in s.t && id in recs {
      assert JobDeque.Charged(s.t[id], RecoverAll(s.t, recs, s.maxAttempts, s.now)[id], s.maxAttempts);
    }
  }

  predicate RunStep(e: Event) {
    e.Claim? || e.StartRun? || e.Spawn? || e.GenerateOk? || e.GenerateFails? || e.WriteResult? || e.Ask? || e.Requeue? || e.Charge? || e.End?
  }

  /** The same run, at the same point, at a later moment. */
  predicate Later(s: Sys, s': Sys) {
    && s'.pc == s.pc && s'.registered == s.registered && s'.quantum == s.quantum
    && s'.run.id == s.run.id && s'.run.ctx == s.run.ctx && s'.run.start == s.run.start && s'.run.aborted == s.run.aborted && s'.run.wanted == s.run.wanted && s'.run.failedAt == s.run.failedAt
    && s.now <= s'.now && s.epoch <= s'.epoch
    && (s.shutdown ==> s'.shutdown) && (s.run.preempted ==> s'.run.preempted)
    && (s.run.ctx <= s.epoch && s.ServeDone(s.run.ctx) ==> s'.ServeDone(s.run.ctx))
    && (s'.run.preempted && !s.run.preempted ==> s.run.monitor == Watching && s.now - s.run.start >= s.quantum)
    && (s'.run.monitor == s.run.monitor || s.run.monitor != Asleep)
    && (s'.run.monitor == AboutToCancel && s.run.monitor != AboutToCancel ==> s'.run.preempted || s.ServeDone(s.run.ctx))
    && (s'.run.ctxCancelled && !s.run.ctxCancelled ==>
          s.run.monitor == AboutToCancel || (s.registered && s.run.id in s.undelivered))
  }

  predicate MonitorStep(e: Event) {
    e.MonitorSeesYield? || e.MonitorPreempts? || e.MonitorCancels?
  }

  lemma MonitorIsLater(s: Sys, e: Event)
    requires Enabled(s, e) && MonitorStep(e) && s.pc.InRun()
    ensures Later(s, Next(s, e))
  {
  }

  lemma TableStepIsLater(s: Sys, e: Event)
    requires Enabled(s, e) && (e.Submit? || e.CancelCommit? || e.CancelDeliver? || e.Discard?) && s.pc.InRun()
    ensures Later(s, Next(s, e))
  {
  }

  lemma WorldIsLater(s: Sys, e: Event)
    requires Enabled(s, e) && !RunStep(e) && !e.Crash? && s.pc.InRun()
    ensures Later(s, Next(s, e))
  {
    if MonitorStep(e) {
      MonitorIsLater(s, e);
    } else if e.Submit? || e.CancelCommit? || e.CancelDeliver? || e.Discard? {
      TableStepIsLater(s, e);
    }
  }

  /** What the rest of the world does never withdraws a published reason. */
  lemma LaterKeepsRunOk(s: Sys, s': Sys)
    requires s.pc.InRun() && RunOk(s) && CancelsOk(s) && Later(s, s')
    requires s.used <= s'.used && (OutOfReach(s) ==> OutOfReach(s'))
    ensures RunOk(s')
  {
    assert s'.run.ctxCancelled && !s.run.ctxCancelled && s.run.monitor != AboutToCancel ==> OutOfReach(s);
  }

  lemma LoopStartsNoRun(s: Sys, e: Event)
    requires Enabled(s, e) && (e.Peek? || e.Acquire? || e.ProbeHeld? || e.ClaimNothing? || e.Recover? || e.Crash?)
    ensures !Next(s, e).pc.InRun()
  {
  }

  lemma WorldStartsNoRun(s: Sys, e: Event)
    requires Enabled(s, e) && !RunStep(e) && (!s.pc.InRun() || e.Crash?)
    ensures !Next(s, e).pc.InRun()
  {
    if e.Peek? || e.Acquire? || e.ProbeHeld? || e.ClaimNothing? || e.Recover? || e.Crash? {
      LoopStartsNoRun(s, e);
    }
  }

  lemma WorldKeepsRunOk(s: Sys, e: Event)
    requires Enabled(s, e) && !RunStep(e) && s.t.Keys <= s.used && RunOk(s) && CancelsOk(s)
    ensures RunOk(Next(s, e))
  {
    if s.pc.InRun() && !e.Crash? {
      WorldIsLater(s, e);
      RowChanges(s, e, s.run.id);
      LaterKeepsRunOk(s, Next(s, e));
    } else {
      WorldStartsNoRun(s, e);
    }
  }

  lemma ClaimStartsRun(s: Sys, id: Id)
    requires Enabled(s, Claim(id)) && s.t.Keys <= s.used && !s.registered
    ensures RunOk(Next(s, Claim(id)))
  {
  }

  /** The table writes that end a run take a canceled or pruned job no further. */
  lemma WriteKeepsRunOk(s: Sys, e: Event)
    requires Enabled(s, e) && (e.WriteResult? || e.Requeue? || e.Charge?) && s.t.Keys <= s.used && RunOk(s)
    ensures RunOk(Next(s, e))
  {
    RowChanges(s, e, s.run.id);
    WriteEnds(s, Next(s, e));
  }

  lemma WriteEnds(s: Sys, s': Sys)
    requires s.pc.InRun() && s.pc !in {Claimed, Registered} && RunOk(s) && (OutOfReach(s) ==> OutOfReach(s'))
    requires s' == s.(t := s'.t, pc := Ending, left := s'.left)
    ensures RunOk(s')
  {
  }

  lemma LocalStepKeepsRunOk(s: Sys, e: Event)
    requires Enabled(s, e) && RunOk(s)
    requires e.StartRun? || e.Spawn? || e.GenerateOk? || e.GenerateFails? || e.Ask? || e.End?
    ensures RunOk(Next(s, e))
  {
  }

  lemma RunStepKeepsRunOk(s: Sys, e: Event)
    requires Enabled(s, e) && RunStep(e) && s.t.Keys <= s.used && RunOk(s)
    requires !s.pc.InRun() ==> !s.registered
    ensures RunOk(Next(s, e))
  {
    match e
    case Claim(id) => ClaimStartsRun(s, id);
    case WriteResult(_, _) => WriteKeepsRunOk(s, e);
    case Requeue(_) => WriteKeepsRunOk(s, e);
    case Charge(_, _) => WriteKeepsRunOk(s, e);
    case _ => LocalStepKeepsRunOk(s, e);
  }

  lemma CancelsFollow(s: Sys, e: Event)
    requires Enabled(s, e) && s.t.Keys <= s.used && CancelsOk(s)
    ensures CancelsOk(Next(s, e))
  {
    var s' := Next(s, e);
    forall id | id in s'.undelivered
      ensures id in s'.used && (id !in s'.t || s'.t[id].state == Canceled)
    {
      if id in s.undelivered {
        RowChanges(s, e, id);
      }
    }
  }

  lemma RecoverLeavesNoneRunning(s: Sys, recs: seq<Id>)
    requires Enabled(s, Recover(recs)) && RunningOk(s)
    ensures RunningOk(Next(s, Recover(recs)))
  {
    JobDeque.SweepCharges(s.t, recs, s.maxAttempts, s.now);
    forall id | id in s.t
      ensures Next(s, Recover(recs)).t[id].state != Running
    {
      SweepCharged(s, recs, id);
    }
  }

  lemma ClaimKeepsRunning(s: Sys, id: Id)
    requires Enabled(s, Claim(id)) && RunningOk(s)
    ensures RunningOk(Next(s, Claim(id)))
  {
  }

  lemma WriteKeepsRunning(s: Sys, e: Event)
    requires Enabled(s, e) && RunningOk(s) && (e.WriteResult? || e.Requeue? || e.Charge?)
    ensures RunningOk(Next(s, e))
  {
  }

  lemma LocalStepKeepsRunning(s: Sys, e: Event)
    requires Enabled(s, e) && RunOk(s) && RunningOk(s)
    requires e.StartRun? || e.Spawn? || e.GenerateOk? || e.GenerateFails? || e.Ask? || e.End?
    ensures RunningOk(Next(s, e))
  {
  }

  /** Submit, Cancel and Prune never make a job RUNNING. */
  lemma TableStepKeepsRunning(s: Sys, e: Event)
    requires Enabled(s, e) && (e.Submit? || e.CancelCommit? || e.Discard?) && RunningOk(s)
    ensures RunningOk(Next(s, e))
  {
    var s' := Next(s, e);
    assert forall id :: id in s'.t && s'.t[id].state == Running ==> id in s.t && s.t[id].state == Running;
  }

  /** A step inside a run that leaves the table alone. */
  lemma AbortStepKeepsRunning(s: Sys, e: Event)
    requires Enabled(s, e) && (MonitorStep(e) || e.CancelDeliver?) && RunningOk(s)
    ensures RunningOk(Next(s, e))
  {
  }

  /** A step of Run's loop before it has claimed anything. */
  lemma LoopStepKeepsRunning(s: Sys, e: Event)
    requires Enabled(s, e) && (e.Peek? || e.Acquire? || e.ProbeHeld? || e.ClaimNothing?) && RunningOk(s)
    ensures RunningOk(Next(s, e))
  {
  }

  lemma WorldKeepsRunning(s: Sys, e: Event)
    requires Enabled(s, e) && !RunStep(e) && !e.Recover? && RunningOk(s)
    ensures RunningOk(Next(s, e))
  {
    if e.Submit? || e.CancelCommit? || e.Discard? {
      TableStepKeepsRunning(s, e);
    } else if MonitorStep(e) || e.CancelDeliver? {
      AbortStepKeepsRunning(s, e);
    } else if e.Peek? || e.Acquire? || e.ProbeHeld? || e.ClaimNothing? {
      LoopStepKeepsRunning(s, e);
    }
  }

  lemma RunningFollows(s: Sys, e: Event)
    requires Enabled(s, e) && s.t.Keys <= s.used && RunOk(s) && RunningOk(s)
    ensures RunningOk(Next(s, e))
  {
    if e.Recover? {
      RecoverLeavesNoneRunning(s, e.recs);
    } else if e.Claim? {
      ClaimKeepsRunning(s, e.id);
    } else if e.WriteResult? || e.Requeue? || e.Charge? {
      WriteKeepsRunning(s, e);
    } else if RunStep(e) {
      LocalStepKeepsRunning(s, e);
    } else {
      WorldKeepsRunning(s, e);
    }
  }

  lemma RunStepKeepsClear(s: Sys, e: Event)
    requires Enabled(s, e) && RunStep(e) && ClearOk(s)
    ensures ClearOk(Next(s, e))
  {
  }

  lemma ClearFollows(s: Sys, e: Event)
    requires Enabled(s, e) && ClearOk(s)
    ensures ClearOk(Next(s, e))
  {
    if RunStep(e) {
      RunStepKeepsClear(s, e);
    }
  }

  /** The worker does not touch what it sees of the controller. */
  lemma YieldViewMoves(s: Sys, e: Event)
    requires Enabled(s, e) && !e.SetYielding? && !e.Crash?
    ensures Next(s, e).yielding == s.yielding && Next(s, e).epoch == s.epoch
  {
    match e
    case MonitorSeesYield =>
    case MonitorPreempts =>
    case MonitorCancels =>
    case CancelDeliver(_) =>
    case GenerateFails =>
    case WriteResult(_, _) =>
    case Requeue(_) =>
    case Charge(_, _) =>
    case Claim(_) =>
    case Ask(_) =>
    case _ =>
  }

  lemma NextKeepsInv(s: Sys, e: Event)
    requires Inv(s) && Enabled(s, e)
    ensures Inv(Next(s, e))
  {
    CancelsFollow(s, e);
    RunningFollows(s, e);
    ClearFollows(s, e);
    if RunStep(e) {
      RunStepKeepsRunOk(s, e);
    } else {
      WorldKeepsRunOk(s, e);
    }
    forall id | id in Next(s, e).t
      ensures id in Next(s, e).used
    {
      if id in s.used {
        RowChanges(s, e, id);
      } else if e.Recover? {
        JobDeque.SweepCharges(s.t, e.recs, s.maxAttempts, s.now);
      }
    }
  }

  lemma {:induction false} RunKeepsInv(s: Sys, es: seq<Event>)
    requires Inv(s) && CanRun(s, es)
    ensures Inv(Run(s, es))
    decreases |es|
  {
    if es != [] {
      NextKeepsInv(s, es[0]);
      RunKeepsInv(Next(s, es[0]), es[1..]);
    }
  }

  // ----- what holds over whole runs -----

  /** `s` is reached by some run, crashes included, from a process start on some table. */
  ghost predicate Reachable(s: Sys) {
    exists t: Table, quantum: int, maxAttempts: int, now: int, es: seq<Event> ::
      CanRun(Init(t, quantum, maxAttempts, now), es) && s == Run(Init(t, quantum, maxAttempts, now), es)
  }

  lemma ReachableInv(s: Sys)
    requires Reachable(s)
    ensures Inv(s)
  {
    var t: Table, quantum: int, maxAttempts: int, now: int, es: seq<Event> :|
      CanRun(Init(t, quantum, maxAttempts, now), es) && s == Run(Init(t, quantum, maxAttempts, now), es);
    RunKeepsInv(Init(t, quantum, maxAttempts, now), es);
  }

  /**
   No step other than a restart raises a job's attempts, except the worker's own charge for a
   Generate that failed while there was no reason to abort it: not once the job is canceled, the
   serve context it captured is cancelled, interactive work has preempted it, or shutdown has
   begun, whether or not its own context knew yet, and even when the isCanceled read fails.
   */
  lemma OnlyGeneratorErrorsAreCharged(s: Sys, e: Event, id: Id)
    requires Reachable(s) && Enabled(s, e) && !e.Recover?
    requires id in s.t && id in Next(s, e).t && Next(s, e).t[id].attempts != s.t[id].attempts
    ensures e.Charge? && s.pc == Charging && id == s.run.id && !s.run.aborted
  {
    ReachableInv(s);
    RowChanges(s, e, id);
  }

  /**
   A run goes back in line for interactive work either because it had been preempted when it
   failed, which then was not before its quantum, or because it failed by itself and the monitor,
   which watches until runJob returns, overtook it before the last question was asked.
   */
  lemma QuantumIsHonoured(s: Sys)
    requires Reachable(s) && s.pc == AskPreempted && Answer(s, true) == Requeueing
    ensures s.now - s.run.start >= s.quantum
    ensures s.run.wanted ==> s.run.failedAt - s.run.start >= s.quantum
    ensures s.run.failedAt - s.run.start < s.quantum ==> !s.run.wanted && s.run.preempted
  {
    ReachableInv(s);
  }

  /** Nothing in `es` ends the run in progress. */
  ghost predicate SameRun(es: seq<Event>) {
    forall k :: 0 <= k < |es| ==> !es[k].End? && !es[k].Crash?
  }

  ghost predicate MonitorFires(es: seq<Event>) {
    exists k :: 0 <= k < |es| && es[k].MonitorPreempts?
  }

  /** `s'` is the same run, still past Generate, preempted since if `fired`. */
  ghost predicate RunsOn(s: Sys, s': Sys, fired: bool) {
    && s'.pc.PastGenerate() && s'.run.id == s.run.id && s'.run.aborted == s.run.aborted
    && (s'.run.preempted <==> s.run.preempted || fired)
  }

  lemma QuestionRunsOn(s: Sys, e: Event)
    requires Enabled(s, e) && s.pc.PastGenerate() && (e.Ask? || e.Requeue? || e.Charge?)
    ensures RunsOn(s, Next(s, e), false)
  {
  }

  lemma AbortStepRunsOn(s: Sys, e: Event)
    requires Enabled(s, e) && s.pc.PastGenerate() && (MonitorStep(e) || e.CancelDeliver?)
    ensures RunsOn(s, Next(s, e), e.MonitorPreempts?)
  {
  }

  /** Past Generate a run is preempted by the monitor and by nothing else. */
  lemma StepPreempts(s: Sys, e: Event)
    requires Enabled(s, e) && s.pc.PastGenerate() && !e.End? && !e.Crash?
    ensures RunsOn(s, Next(s, e), e.MonitorPreempts?)
  {
    if e.Ask? || e.Requeue? || e.Charge? {
      QuestionRunsOn(s, e);
    } else if MonitorStep(e) || e.CancelDeliver? {
      AbortStepRunsOn(s, e);
    }
  }

  lemma {:induction false} MonitorPreemptsIff(s: Sys, es: seq<Event>)
    requires CanRun(s, es) && s.pc.PastGenerate() && SameRun(es)
    ensures Run(s, es).run.id == s.run.id && Run(s, es).run.aborted == s.run.aborted && Run(s, es).pc.PastGenerate()
    ensures Run(s, es).run.preempted <==> s.run.preempted || MonitorFires(es)
    decreases |es|
  {
    if es != [] {
      StepPreempts(s, es[0]);
      assert forall k :: 0 <= k < |es[1..]| ==> es[1..][k] == es[k + 1];
      MonitorPreemptsIff(Next(s, es[0]), es[1..]);
    }
  }

  /**
   Exactly when a run that failed before its quantum is requeued for interactive work: it came
   through the first three questions, and the monitor fired after the failure. A run that had
   failed with no reason to abort it is then requeued for free.
   */
  lemma EarlyFailureRequeuedIff(s: Sys, es: seq<Event>)
    requires Reachable(s) && s.pc == Generating && s.now - s.run.start < s.quantum
    requires CanRun(Next(s, GenerateFails), es) && SameRun(es) && Run(Next(s, GenerateFails), es).pc == AskPreempted
    ensures Answer(Run(Next(s, GenerateFails), es), true) == Requeueing <==> MonitorFires(es)
  {
    ReachableInv(s);
    MonitorPreemptsIff(Next(s, GenerateFails), es);
  }

  /** The monitor fires late: the quantum runs out and interactive work comes while runJob asks its questions. */
  function FireLate(d: nat): (es: seq<Event>) {
    [GenerateFails] + ([Tick(d)] + ([SetInteractive(true)] + ([MonitorPreempts]
    + ([Ask(true)] + ([Ask(true)] + ([Ask(true)] + ([Ask(true)] + [])))))))
  }

  lemma FourQuestions(s: Sys)
    requires s.pc == AskCanceled && IsRunning(s.t, s.run.id) && !s.shutdown && !s.ServeDone(s.run.ctx) && s.run.preempted
    ensures var es := [Ask(true)] + ([Ask(true)] + ([Ask(true)] + ([Ask(true)] + [])));
            CanRun(s, es) && Run(s, es) == s.(pc := Requeueing)
  {
    var s1 := s.(pc := AskShutdown);
    var s2 := s.(pc := AskYield);
    var s3 := s.(pc := AskPreempted);
    var s4 := s.(pc := Requeueing);
    assert Next(s, Ask(true)) == s1 && Next(s1, Ask(true)) == s2;
    assert Next(s2, Ask(true)) == s3 && Next(s3, Ask(true)) == s4;
    RunCons(s3, Ask(true), []);
    RunCons(s2, Ask(true), [Ask(true)] + []);
    RunCons(s1, Ask(true), [Ask(true)] + ([Ask(true)] + []));
    RunCons(s, Ask(true), [Ask(true)] + ([Ask(true)] + ([Ask(true)] + [])));
  }

  /** From any run before its quantum with nothing wrong: a genuine generator error goes back in line uncharged. */
  lemma LateMonitorRequeues(s: Sys, d: nat)
    requires Reachable(s) && s.pc == Generating && s.run.monitor == Watching && IsRunning(s.t, s.run.id)
    requires !Published(s) && !s.JobCtxDone() && !s.ServeDone(s.run.ctx)
    requires s.now - s.run.start < s.quantum <= s.now + d - s.run.start
    ensures CanRun(s, FireLate(d))
    ensures var s' := Run(s, FireLate(d));
            && s'.pc == Requeueing && !s'.run.aborted && s'.run.failedAt - s'.run.start < s'.quantum
            && IsRunning(s'.t, s'.run.id)
  {
    var s1 := Next(s, GenerateFails);
    var s2 := s1.(now := s.now + d);
    var s3 := s2.(interactive := true);
    var s4 := s3.(run := s3.run.(monitor := AboutToCancel, preempted := true));
    assert Next(s1, Tick(d)) == s2 && Next(s2, SetInteractive(true)) == s3;
    assert Enabled(s3, MonitorPreempts) && Next(s3, MonitorPreempts) == s4;
    FourQuestions(s4);
    var asks := [Ask(true)] + ([Ask(true)] + ([Ask(true)] + ([Ask(true)] + [])));
    RunCons(s3, MonitorPreempts, asks);
    RunCons(s2, SetInteractive(true), [MonitorPreempts] + asks);
    RunCons(s1, Tick(d), [SetInteractive(true)] + ([MonitorPreempts] + asks));
    RunCons(s, GenerateFails, [Tick(d)] + ([SetInteractive(true)] + ([MonitorPreempts] + asks)));
  }

  lemma RunCons(s: Sys, e: Event, es: seq<Event>)
    requires Enabled(s, e) && CanRun(Next(s, e), es)
    ensures CanRun(s, [e] + es) && Run(s, [e] + es) == Run(Next(s, e), es)
  {
    assert ([e] + es)[1..] == es;
  }

  lemma StepChargesNothing(s: Sys, e: Event)
    requires Inv(s) && Enabled(s, e) && s.pc.PastGenerate() && s.run.aborted
    requires s.run.id in s.t && s.run.id in Next(s, e).t
    ensures Next(s, e).t[s.run.id].attempts == s.t[s.run.id].attempts
  {
    RowChanges(s, e, s.run.id);
  }

  /** An aborted run is never charged, however the questions go, as long as it lasts. */
  lemma {:induction false} AbortedIsNeverCharged(s: Sys, es: seq<Event>)
    requires Inv(s) && CanRun(s, es) && s.pc.PastGenerate() && s.run.aborted && SameRun(es)
    requires s.run.id in s.t && s.run.id in Run(s, es).t
    ensures Run(s, es).t[s.run.id].attempts == s.t[s.run.id].attempts
    decreases |es|
  {
    if es != [] {
      var s' := Next(s, es[0]);
      NextKeepsInv(s, es[0]);
      StepPreempts(s, es[0]);
      assert forall k :: 0 <= k < |es[1..]| ==> es[1..][k] == es[k + 1];
      if s.run.id in s'.t {
        StepChargesNothing(s, es[0]);
        AbortedIsNeverCharged(s', es[1..]);
      } else {
        PrunedStaysPruned(s', es[1..], s.run.id);
      }
    }
  }

  lemma {:induction false} PrunedStaysPruned(s: Sys, es: seq<Event>, id: Id)
    requires Inv(s) && CanRun(s, es) && id in s.used && id !in s.t
    ensures id !in Run(s, es).t
    decreases |es|
  {
    if es != [] {
      NextKeepsInv(s, es[0]);
      RowChanges(s, es[0], id);
      PrunedStaysPruned(Next(s, es[0]), es[1..], id);
    }
  }

  /** The worker claims and runs jobs only after a probe, made with the slot in hand, that saw no yield. */
  lemma ClaimsOnlyWhenClear(s: Sys)
    requires Reachable(s) && (s.pc == Claiming || s.pc.InRun())
    ensures s.clear
  {
    ReachableInv(s);
  }

  lemma ProbeDecides(s: Sys)
    requires Enabled(s, ProbeHeld)
    ensures var s' := Next(s, ProbeHeld);
            (s'.pc == Claiming && s'.clear <==> !s.yielding) && (s'.pc == Idle && !s'.clear <==> s.yielding)
  {
  }

  /** While a yield is on, the loop does not even ask for a slot. */
  lemma NoStartInYield(s: Sys)
    requires s.pc == Idle && s.yielding
    ensures forall e :: Enabled(s, e) && Next(s, e).pc != Idle ==> e.Crash?
  {
  }

  /** Without a job to claim, or without a slot, the worker is back in its loop with nothing held. */
  lemma NothingToRun(s: Sys)
    ensures Enabled(s, ClaimNothing) ==> Next(s, ClaimNothing) == s.(pc := Idle)
    ensures Enabled(s, Acquire(false)) ==> Next(s, Acquire(false)) == s.(pc := Idle)
    ensures !Idle.HoldsSlot()
  {
  }

  /** A run whose job has been canceled writes nothing more. */
  lemma CanceledRunEnds(s: Sys)
    requires s.pc == AskCanceled && s.run.id in s.t && s.t[s.run.id].state == Canceled
    ensures Enabled(s, Ask(true)) && Next(s, Ask(true)) == s.(pc := Ending)
  {
  }

  /** A run watches the serve context that is current when it is spawned, from that moment on. */
  lemma SpawnCaptures(s: Sys)
    requires Enabled(s, Spawn)
    ensures var s' := Next(s, Spawn);
            && s'.run.ctx == s.epoch && s'.run.start == s.now && s'.run.monitor == Watching && s'.pc == Generating
            && (s'.ServeDone(s'.run.ctx) <==> s.yielding)
  {
  }

  /** The monitor aborts the run it watches, on a yield at once, and for interactive work once the quantum is over. */
  lemma MonitorAborts(s: Sys)
    requires s.pc == Generating && s.run.monitor == Watching
    ensures s.ServeDone(s.run.ctx) ==>
              && Enabled(s, MonitorSeesYield) && Enabled(Next(s, MonitorSeesYield), MonitorCancels)
              && var s' := Next(Next(s, MonitorSeesYield), MonitorCancels); s'.JobCtxDone() && s'.run.preempted == s.run.preempted
    ensures s.interactive && s.now - s.run.start >= s.quantum ==>
              && Enabled(s, MonitorPreempts) && Enabled(Next(s, MonitorPreempts), MonitorCancels)
              && var s' := Next(Next(s, MonitorPreempts), MonitorCancels); s'.JobCtxDone() && s'.run.preempted
  {
  }

  /** What was generated is what the job ends with. */
  lemma GeneratedIsStored(s: Sys, result: string)
    requires Enabled(s, WriteResult(result, true)) && IsRunning(s.t, s.run.id)
    ensures var s' := Next(s, WriteResult(result, true));
            && SameElsewhere(s.t, s'.t, s.run.id) && s'.pc == Ending
            && s'.t[s.run.id] == s.t[s.run.id].(state := Succeeded, result := result, finished := Some(s.now), error := "")
  {
  }

  // ----- what becomes of a run that failed -----

  /** `es` stays in the run of `id`, its writes succeed, and nobody cancels the job. */
  ghost predicate Unhindered(es: seq<Event>, id: Id) {
    && SameRun(es)
    && forall k :: 0 <= k < |es| ==>
         es[k] != CancelCommit(id) && (es[k].Requeue? ==> es[k].dbOk) && (es[k].Charge? ==> es[k].dbOk)
  }

  /** Besides, nothing comes up to abort it. */
  ghost predicate Undisturbed(es: seq<Event>, id: Id) {
    && Unhindered(es, id)
    && forall k :: 0 <= k < |es| ==> !es[k].ShutDown? && es[k] != SetYielding(true) && !es[k].MonitorPreempts?
  }

  /** A row after one genuine error. */
  predicate OneErrorMore(r: Row, r': Row, maxAttempts: int) {
    && r'.attempts == r.attempts + 1
    && (r'.state == Failed <==> r.attempts + 1 >= maxAttempts)
    && (r'.state == Queued <==> r.attempts + 1 < maxAttempts)
  }

  /** On its way to being charged, or charged; a failed job may have been pruned since. */
  predicate BeingCharged(s: Sys, id: Id, r: Row, max: int) {
    && s.run.id == id && s.maxAttempts == max
    && if s.pc == Ending then id !in s.t || OneErrorMore(r, s.t[id], s.maxAttempts)
       else
         && s.pc in {AskCanceled, AskShutdown, AskYield, AskPreempted, Charging}
         && id in s.t && s.t[id] == r && r.state == Running
         && !s.shutdown && !s.ServeDone(s.run.ctx) && !s.run.preempted
  }

  lemma QuestionKeepsCharging(s: Sys, e: Event, id: Id, r: Row, max: int)
    requires Enabled(s, e) && BeingCharged(s, id, r, max) && (e.Ask? || (e.Charge? && e.dbOk))
    ensures BeingCharged(Next(s, e), id, r, max)
  {
  }

  lemma TableStepKeepsCharging(s: Sys, e: Event, id: Id, r: Row, max: int)
    requires Enabled(s, e) && BeingCharged(s, id, r, max) && s.t.Keys <= s.used && id in s.used
    requires e.Submit? || (e.CancelCommit? && e.id != id) || e.Discard?
    ensures BeingCharged(Next(s, e), id, r, max)
  {
  }

  lemma AbortStepKeepsCharging(s: Sys, e: Event, id: Id, r: Row, max: int)
    requires Enabled(s, e) && BeingCharged(s, id, r, max) && (e.CancelDeliver? || (MonitorStep(e) && !e.MonitorPreempts?))
    ensures BeingCharged(Next(s, e), id, r, max)
  {
  }

  lemma StepKeepsCharging(s: Sys, e: Event, id: Id, r: Row, max: int)
    requires Enabled(s, e) && BeingCharged(s, id, r, max) && s.t.Keys <= s.used && id in s.used
    requires Undisturbed([e], id)
    ensures BeingCharged(Next(s, e), id, r, max)
  {
    assert [e][0] == e;
    if e.Ask? || e.Charge? {
      QuestionKeepsCharging(s, e, id, r, max);
    } else if e.Submit? || e.CancelCommit? || e.Discard? {
      TableStepKeepsCharging(s, e, id, r, max);
    } else if e.CancelDeliver? || MonitorStep(e) {
      AbortStepKeepsCharging(s, e, id, r, max);
    }
  }

  lemma {:induction false} ChargedInTheEnd(s: Sys, es: seq<Event>, id: Id, r: Row, max: int)
    requires Inv(s) && CanRun(s, es) && BeingCharged(s, id, r, max) && id in s.used && Undisturbed(es, id)
    ensures BeingCharged(Run(s, es), id, r, max)
    decreases |es|
  {
    if es != [] {
      assert [es[0]][0] == es[0] && forall k :: 0 <= k < |es[1..]| ==> es[1..][k] == es[k + 1];
      NextKeepsInv(s, es[0]);
      StepKeepsCharging(s, es[0], id, r, max);
      RowChanges(s, es[0], id);
      ChargedInTheEnd(Next(s, es[0]), es[1..], id, r, max);
    }
  }

  /**
   A genuine generator error is charged: a run that fails by itself, with nothing there or coming
   up to abort it, costs its job exactly one attempt, and the job fails iff that was the last.
   */
  lemma GenuineErrorIsCharged(s: Sys, es: seq<Event>)
    requires Reachable(s) && s.pc == Generating && IsRunning(s.t, s.run.id) && !Published(s)
    requires CanRun(s, es) && es != [] && es[0] == GenerateFails && Undisturbed(es, s.run.id)
    requires Run(s, es).pc == Ending && s.run.id in Run(s, es).t
    ensures var r, r' := s.t[s.run.id], Run(s, es).t[s.run.id];
            && r'.attempts == r.attempts + 1
            && (r'.state == Failed <==> r'.attempts >= s.maxAttempts)
            && (r'.state == Queued <==> r'.attempts < s.maxAttempts)
  {
    ReachableInv(s);
    NextKeepsInv(s, GenerateFails);
    assert forall k :: 0 <= k < |es[1..]| ==> es[1..][k] == es[k + 1];
    ChargedInTheEnd(Next(s, GenerateFails), es[1..], s.run.id, s.t[s.run.id], s.maxAttempts);
  }

  /** On its way back into the line, or there. */
  predicate BeingRequeued(s: Sys, id: Id, r: Row) {
    && s.run.id == id && s.run.ctx <= s.epoch && id in s.t
    && if s.pc == Ending then s.t[id].state == Queued && s.t[id] == r.(state := Queued, started := None, hint := s.t[id].hint)
       else
         && s.t[id] == r && r.state == Running
         && (s.pc in {AskCanceled, AskShutdown, Requeueing}
             || (s.pc == AskYield && (s.ServeDone(s.run.ctx) || s.run.preempted))
             || (s.pc == AskPreempted && s.run.preempted))
         && (s.pc in {AskCanceled, AskShutdown} ==> s.shutdown || s.ServeDone(s.run.ctx) || s.run.preempted)
  }

  lemma QuestionKeepsRequeueing(s: Sys, e: Event, id: Id, r: Row)
    requires Enabled(s, e) && BeingRequeued(s, id, r) && (e.Ask? || (e.Requeue? && e.dbOk))
    ensures BeingRequeued(Next(s, e), id, r)
  {
  }

  lemma TableStepKeepsRequeueing(s: Sys, e: Event, id: Id, r: Row)
    requires Enabled(s, e) && BeingRequeued(s, id, r) && s.t.Keys <= s.used
    requires e.Submit? || (e.CancelCommit? && e.id != id) || e.Discard?
    ensures BeingRequeued(Next(s, e), id, r)
  {
  }

  lemma AbortStepKeepsRequeueing(s: Sys, e: Event, id: Id, r: Row)
    requires Enabled(s, e) && BeingRequeued(s, id, r) && (e.CancelDeliver? || MonitorStep(e))
    ensures BeingRequeued(Next(s, e), id, r)
  {
  }

  lemma StepKeepsRequeueing(s: Sys, e: Event, id: Id, r: Row)
    requires Enabled(s, e) && BeingRequeued(s, id, r) && s.t.Keys <= s.used
    requires Unhindered([e], id)
    ensures BeingRequeued(Next(s, e), id, r)
  {
    assert [e][0] == e;
    if e.Ask? || e.Requeue? {
      QuestionKeepsRequeueing(s, e, id, r);
    } else if e.Submit? || e.CancelCommit? || e.Discard? {
      TableStepKeepsRequeueing(s, e, id, r);
    } else if e.CancelDeliver? || MonitorStep(e) {
      AbortStepKeepsRequeueing(s, e, id, r);
    }
  }

  lemma {:induction false} RequeuedInTheEnd(s: Sys, es: seq<Event>, id: Id, r: Row)
    requires Inv(s) && CanRun(s, es) && BeingRequeued(s, id, r) && Unhindered(es, id)
    ensures BeingRequeued(Run(s, es), id, r)
    decreases |es|
  {
    if es != [] {
      assert [es[0]][0] == es[0] && forall k :: 0 <= k < |es[1..]| ==> es[1..][k] == es[k + 1];
      NextKeepsInv(s, es[0]);
      StepKeepsRequeueing(s, es[0], id, r);
      RequeuedInTheEnd(Next(s, es[0]), es[1..], id, r);
    }
  }

  /**
   An interrupted run goes back in line for free: one that fails once shutdown, a yield or
   interactive work has given it a reason to, leaves its job queued and otherwise as it was.
   */
  lemma InterruptedIsRequeued(s: Sys, es: seq<Event>)
    requires Reachable(s) && s.pc == Generating && IsRunning(s.t, s.run.id)
    requires s.shutdown || s.ServeDone(s.run.ctx) || s.run.preempted
    requires CanRun(s, es) && es != [] && es[0] == GenerateFails && Unhindered(es, s.run.id)
    requires Run(s, es).pc == Ending
    ensures var t' := Run(s, es).t;
            && s.run.id in t'
            && t'[s.run.id] == s.t[s.run.id].(state := Queued, started := None, hint := t'[s.run.id].hint)
  {
    ReachableInv(s);
    NextKeepsInv(s, GenerateFails);
    assert forall k :: 0 <= k < |es[1..]| ==> es[1..][k] == es[k + 1];
    RequeuedInTheEnd(Next(s, GenerateFails), es[1..], s.run.id, s.t[s.run.id]);
  }

  /** Between restarts a job is RUNNING only while the worker is on it and holds the slot, or because its last write failed. */
  lemma RunningHoldsSlot(s: Sys, id: Id)
    requires Reachable(s) && s.pc != Booting && IsRunning(s.t, id)
    ensures id in s.left || (id == s.run.id && s.pc.HoldsSlot())
  {
    ReachableInv(s);
  }

  /** What a restart can find: the job the worker was on when the process died, and those whose last write had failed. */
  lemma CrashLeaves(s: Sys, recs: seq<Id>)
    requires Reachable(s) && s.pc != Booting && IsSweep(Next(s, Crash).t, recs)
    ensures forall id :: id in recs ==> id in s.left || id == s.run.id
    ensures s.left == {} ==> |recs| <= 1
  {
    ReachableInv(s);
    if |recs| > 1 {
      assert recs[0] in recs && recs[1] in recs && recs[0] != recs[1];
    }
  }

  /** A canceled job stays canceled until it is pruned, through every race and every restart. */
  lemma {:induction false} CanceledStays(s: Sys, es: seq<Event>, id: Id)
    requires Inv(s) && CanRun(s, es) && id in s.used
    requires id in s.t ==> s.t[id].state == Canceled
    ensures var t' := Run(s, es).t; id in t' ==> id in s.t && t'[id] == s.t[id]
    decreases |es|
  {
    if es != [] {
      NextKeepsInv(s, es[0]);
      RowChanges(s, es[0], id);
      CanceledStays(Next(s, es[0]), es[1..], id);
    }
  }

  /** Delivering a Cancel aborts the run of that job iff startRun had registered it. */
  lemma DeliveryAbortsRegisteredRun(s: Sys, id: Id)
    requires Reachable(s) && id in s.undelivered && s.pc.InRun() && s.run.id == id && !s.run.ctxCancelled
    ensures var s' := Next(s, CancelDeliver(id));
            s'.run.ctxCancelled <==> s.pc != Claimed
  {
    ReachableInv(s);
  }

  /** A run of job `id` that generates although the job is canceled, its context alive. */
  ghost predicate RunsThoughCanceled(s: Sys, id: Id) {
    s.pc == Generating && s.run.id == id && id in s.t && s.t[id].state == Canceled && !s.JobCtxDone()
  }

  /** Cancel between the claim and startRun. */
  function CancelEarly(id: Id): (es: seq<Event>) {
    [CancelCommit(id)] + ([CancelDeliver(id)] + ([StartRun] + ([Spawn] + [])))
  }

  /** In that gap the Cancel commits, and its delivery finds nothing registered. */
  lemma CancelInGap(s: Sys) returns (s': Sys)
    requires Inv(s) && s.pc == Claimed && IsRunning(s.t, s.run.id)
    ensures Enabled(s, CancelCommit(s.run.id))
    ensures Enabled(Next(s, CancelCommit(s.run.id)), CancelDeliver(s.run.id))
    ensures s' == Next(Next(s, CancelCommit(s.run.id)), CancelDeliver(s.run.id))
    ensures s' == s.(t := JobTable.Cancel(s.t, s.run.id, s.now))
  {
    var s1 := Next(s, CancelCommit(s.run.id));
    s' := Next(s1, CancelDeliver(s.run.id));
    assert s'.undelivered == s.undelivered;
  }

  lemma RunStarts(s: Sys)
    requires s.pc == Claimed && !s.run.ctxCancelled && !s.shutdown
    ensures CanRun(s, [StartRun] + ([Spawn] + []))
    ensures var s' := Run(s, [StartRun] + ([Spawn] + []));
            s'.pc == Generating && s'.run.id == s.run.id && s'.t == s.t && !s'.JobCtxDone()
  {
    var s1 := Next(s, StartRun);
    assert CanRun(Next(s1, Spawn), []) && Run(Next(s1, Spawn), []) == Next(s1, Spawn);
    RunCons(s1, Spawn, []);
    RunCons(s, StartRun, [Spawn] + []);
  }

  /**
   A Cancel that lands between the claim and startRun is done with no effect on the run: the job
   is generated in full all the same, and only the final write is refused.
   */
  lemma CancelCanMissTheRun(s: Sys)
    requires Reachable(s) && s.pc == Claimed && IsRunning(s.t, s.run.id) && !s.shutdown
    ensures CanRun(s, CancelEarly(s.run.id))
    ensures RunsThoughCanceled(Run(s, CancelEarly(s.run.id)), s.run.id)
    ensures forall result: string, now: int ::
              var t' := Run(s, CancelEarly(s.run.id)).t; Succeed(t', s.run.id, result, now) == t'
  {
    ReachableInv(s);
    var id, rest := s.run.id, [StartRun] + ([Spawn] + []);
    var s2 := CancelInGap(s);
    assert s.JobCtxDone() ==> s.run.ctxCancelled;
    RunStarts(s2);
    RunCons(Next(s, CancelCommit(id)), CancelDeliver(id), rest);
    RunCons(s, CancelCommit(id), [CancelDeliver(id)] + rest);
  }

  // ----- two jobs to recover -----

  lemma {:induction false} RunOneMore(s: Sys, es: seq<Event>, e: Event)
    requires CanRun(s, es) && Enabled(Run(s, es), e)
    ensures CanRun(s, es + [e]) && Run(s, es + [e]) == Next(Run(s, es), e)
    decreases |es|
  {
    if es == [] {
      assert [] + [e] == [e] && [e][1..] == [];
    } else {
      assert (es + [e])[0] == es[0] && (es + [e])[1..] == es[1..] + [e];
      RunOneMore(Next(s, es[0]), es[1..], e);
    }
  }

  lemma ReachableNext(s: Sys, e: Event, s': Sys)
    requires Reachable(s) && Enabled(s, e) && s' == Next(s, e)
    ensures Reachable(s')
  {
    var t: Table, quantum: int, maxAttempts: int, now: int, es: seq<Event> :|
      CanRun(Init(t, quantum, maxAttempts, now), es) && s == Run(Init(t, quantum, maxAttempts, now), es);
    RunOneMore(Init(t, quantum, maxAttempts, now), es, e);
    assert s' == Run(Init(t, quantum, maxAttempts, now), es + [e]);
  }

  /** A worker in its loop with nothing going on. */
  ghost predicate AtRest(s: Sys) {
    s.pc == Idle && s.run == NO_RUN && !s.registered && !s.yielding && !s.shutdown
  }

  lemma FreshTable(quantum: int, maxAttempts: int, now: int) returns (s: Sys)
    ensures Reachable(s) && AtRest(s) && s.t == map[] && s.used == {} && s.left == {}
    ensures s.maxAttempts == maxAttempts && s.now == now
  {
    var s0 := Init(map[], quantum, maxAttempts, now);
    assert CanRun(s0, []) && s0 == Run(s0, []);
    assert Reachable(s0);
    s := s0.(pc := Idle, left := {});
    ReachableNext(s0, Recover([]), s);
  }

  /** Two jobs in line, the second created later. */
  lemma TwoSubmitted(quantum: int, maxAttempts: int, now: int) returns (s: Sys)
    ensures Reachable(s) && AtRest(s) && s.left == {} && s.maxAttempts == maxAttempts
    ensures s.t.Keys == {0, 1} && IsQueued(s.t, 0) && IsQueued(s.t, 1) && s.t[0].attempts == s.t[1].attempts == 0
    ensures s.t[0].created < s.t[1].created && s.t[0].hint < s.t[1].hint
  {
    var s0 := FreshTable(quantum, maxAttempts, now);
    var s1 := Next(s0, Submit(0, "a", ""));
    ReachableNext(s0, Submit(0, "a", ""), s1);
    var s2 := s1.(now := s1.now + 1);
    ReachableNext(s1, Tick(1), s2);
    HintBounds(s2.t);
    s := Next(s2, Submit(1, "b", ""));
    ReachableNext(s2, Submit(1, "b", ""), s);
  }

  lemma ClaimedFromRest(s: Sys, id: Id) returns (s': Sys)
    requires Reachable(s) && AtRest(s) && IsHead(s.t, id)
    ensures Reachable(s') && s' == s.(t := JobTable.Claim(s.t, id, s.now), pc := Claimed, run := NO_RUN.(id := id), clear := true)
  {
    ReachableNext(s, Peek, s.(pc := WantSlot));
    ReachableNext(s.(pc := WantSlot), Acquire(true), s.(pc := HasSlot));
    ReachableNext(s.(pc := HasSlot), ProbeHeld, s.(pc := Claiming, clear := true));
    s' := s.(t := JobTable.Claim(s.t, id, s.now), pc := Claimed, run := NO_RUN.(id := id), clear := true);
    ReachableNext(s.(pc := Claiming, clear := true), Claim(id), s');
  }

  /** The job is generated, and the write of its result fails. */
  lemma WriteIsLost(s: Sys) returns (s': Sys)
    requires Reachable(s) && s.pc == Claimed && s.run == NO_RUN.(id := s.run.id) && !s.registered
    ensures Reachable(s') && s' == s.(pc := Idle, run := NO_RUN, left := s.left + {s.run.id})
  {
    var s1 := s.(pc := Registered, registered := true);
    ReachableNext(s, StartRun, s1);
    var s2 := s1.(pc := Generating, run := s1.run.(ctx := s1.epoch, start := s1.now, monitor := Watching));
    ReachableNext(s1, Spawn, s2);
    var s3 := s2.(pc := Answered);
    ReachableNext(s2, GenerateOk, s3);
    var s4 := s3.(pc := Ending, left := s3.left + {s3.run.id});
    ReachableNext(s3, WriteResult("", false), s4);
    s' := s4.(pc := Idle, run := NO_RUN, registered := false);
    ReachableNext(s4, End, s');
  }

  /** A claimed job, of which the table says it is RUNNING, can be reached beside one left behind. */
  lemma ClaimedBesideLeft(quantum: int, maxAttempts: int, now: int) returns (s: Sys)
    ensures Reachable(s) && s.pc == Claimed && s.run.id == 1 && !s.shutdown && s.left == {0} && s.maxAttempts == maxAttempts
    ensures s.t.Keys == {0, 1} && IsRunning(s.t, 0) && IsRunning(s.t, 1) && s.t[0].attempts == s.t[1].attempts == 0
    ensures s.t[0].created < s.t[1].created
  {
    var s0 := TwoSubmitted(quantum, maxAttempts, now);
    var s1 := ClaimedFromRest(s0, 0);
    var s2 := WriteIsLost(s1);
    s := ClaimedFromRest(s2, 1);
  }

  /**
   A restart that reverses: two jobs survive, and the one created later is put first. By
   CrashLeaves this takes a write that failed before the crash.
   */
  lemma ReversalIsReachable(quantum: int, maxAttempts: int, now: int)
    requires maxAttempts >= 2
    ensures exists s: Sys ::
              && Reachable(s) && s.pc == Booting && s.maxAttempts == maxAttempts && IsSweep(s.t, [0, 1])
              && s.t[0].created < s.t[1].created
              && JobDeque.Line(Next(s, Recover([0, 1])).t, [1, 0])
  {
    var before := ClaimedBesideLeft(quantum, maxAttempts, now);
    var s := Next(before, Crash);
    ReachableNext(before, Crash, s);
    assert s.t == before.t;
    SweepOfTwo(s.t, maxAttempts, s.now);
  }

  lemma SweepOfTwo(t: Table, maxAttempts: int, now: int)
    requires maxAttempts >= 2 && t.Keys == {0, 1} && IsRunning(t, 0) && IsRunning(t, 1)
    requires t[0].attempts == t[1].attempts == 0 && t[0].created < t[1].created
    ensures IsSweep(t, [0, 1]) && JobDeque.Line(RecoverAll(t, [0, 1], maxAttempts, now), [1, 0])
  {
    var recs: seq<Id> := [0, 1];
    assert recs[0] == 0 && recs[1] == 1;
    assert JobDeque.Line(t, []);
    JobDeque.SweepReversesSurvivors(t, [], recs, maxAttempts, now);
    TwoSurvive(t, recs, maxAttempts);
    assert [1, 0] + [] == [1, 0];
  }

  lemma TwoSurvive(t: Table, recs: seq<Id>, maxAttempts: int)
    requires maxAttempts >= 2 && recs == [0, 1] && 0 in t && 1 in t && t[0].attempts == t[1].attempts == 0
    ensures JobDeque.Reverse(JobDeque.Survivors(t, recs, maxAttempts)) == [1, 0]
  {
    assert recs[1..] == [1] && recs[1..][1..] == [];
    assert JobDeque.Survivors(t, [1], maxAttempts) == [1];
    assert JobDeque.Survivors(t, recs, maxAttempts) == [0] + [1] == recs;
    assert JobDeque.Reverse([1]) == [1] && JobDeque.Reverse(recs) == [1] + [0] == [1, 0];
  }

  /** The gap of CancelCanMissTheRun is there to be hit. */
  lemma GapIsReachable(quantum: int, maxAttempts: int, now: int)
    ensures exists s: Sys :: Reachable(s) && s.pc == Claimed && IsRunning(s.t, s.run.id) && !s.shutdown
  {
    var s := ClaimedBesideLeft(quantum, maxAttempts, now);
  }
}
