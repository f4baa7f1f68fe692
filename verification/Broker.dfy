/**
 The whole broker: the controller, the Gate with its scheduler and park queue, and the Job worker,
 all stepping at once. A controller step is at the same moment the matching yield step of the other
 two; the worker holds its slot as one client of the Gate's scheduler; what the worker knows of
 interactive work is that scheduler's queue.
 */
module Broker {
  import opened ParkSpec
  import opened SchedulerSpec
  import opened ServeBridge
  import opened Wrappers
  import Gate
  import JobTable
  import Slots = SchedulerRaces
  import Worker = WorkerRaces
  import Yield = YieldRaces

  /** `me` is the scheduler client that the worker is. */
  datatype Sys = Sys(y: Yield.Sys, g: Gate.Sys, w: Worker.Sys, me: nat)

  /** What a process starts with: `kinds` holds None at `me` and for other users of the scheduler. */
  datatype Boot = Boot(
    polls: int, timeouts: seq<int>, targets: seq<nat>, now: int,
    lim: Limits, cfg: ParkConfig, bounded: bool, kinds: seq<Option<Class>>, me: nat)

  datatype Event =
    | Ctl(e: Yield.Event)
    | Req(ge: Gate.Event)
    | Work(we: Worker.Event)
    | Restart(b: Boot)

  ghost predicate BootOk(b: Boot) {
    && (forall r :: 0 <= r < |b.targets| ==> b.targets[r] < |b.timeouts|)
    && 1 <= b.lim.maxInflight && 1 <= b.lim.maxWaiters
    && b.me < |b.kinds| && b.kinds[b.me].None?
  }

  ghost predicate Shape(s: Sys) {
    Yield.Shape(s.y) && Gate.Sized(s.g) && s.me < |s.g.reqs|
  }

  function Slot(s: Sys): (p: Slots.Phase)
    requires Gate.Sized(s.g) && s.me < |s.g.reqs|
  {
    s.g.slots.phases[s.me]
  }

  predicate InteractiveWaits(g: Gate.Sys) {
    g.slots.core.iq != []
  }

  /** The worker's own scheduler steps: Acquire when it wants a slot, Release when its run is over. */
  predicate MyStep(s: Sys, se: Slots.Event)
    requires Gate.Sized(s.g) && s.me < |s.g.reqs|
  {
    match se
    case Acquire(_, cls) => s.w.pc == Worker.WantSlot && cls == Batch
    case Free(_) => Slot(s).HandingOn? || s.w.pc == Worker.Idle
    case _ => true
  }

  ghost predicate Enabled(s: Sys, e: Event)
    requires Shape(s)
  {
    match e
    case Ctl(e) => Yield.Enabled(s.y, e) && !e.Capture?
    case Req(ge) =>
      && Gate.Enabled(s.g, ge) && !ge.SetYielding?
      && (ge.Dispatch? ==> s.y.poller.Off?)
      && (ge.SlotStep? && ge.se.c == s.me ==> MyStep(s, ge.se))
    case Work(we) =>
      && Worker.Enabled(s.w, we) && !we.SetYielding? && !we.SetInteractive? && !we.Crash?
      && (we.Spawn? ==> s.y.poller.Off?)
      && (we.Peek? ==> Slot(s).Idle?)
      && (we.Acquire? ==> if we.ok then Slot(s).Holding? else Slot(s).Idle?)
    case Restart(b) => BootOk(b)
  }

  function FreshYield(b: Boot): (y: Yield.Sys)
    requires forall r :: 0 <= r < |b.targets| ==> b.targets[r] < |b.timeouts|
  {
    Yield.Init(b.polls, b.timeouts, b.now, b.targets)
  }

  function FreshGate(b: Boot): (g: Gate.Sys) {
    Gate.Init(b.lim, b.cfg, b.bounded, b.kinds)
  }

  /** ServeContext hands the current context out under the controller's mutex. */
  function Captured(y: Yield.Sys, takes: bool): (y': Yield.Sys) {
    if takes then y.(captured := y.captured + {y.ctl.serve}) else y
  }

  ghost function Next(s: Sys, e: Event): (s': Sys)
    requires Shape(s) && Enabled(s, e)
  {
    match e
    case Ctl(e) =>
      var y := Yield.Next(s.y, e);
      Sys(y, Gate.Next(s.g, Gate.SetYielding(y.ctl.effective)), Worker.Next(s.w, Worker.SetYielding(y.ctl.effective)), s.me)
    case Req(ge) =>
      var g := Gate.Next(s.g, ge);
      Sys(Captured(s.y, ge.Dispatch?), g, Worker.Next(s.w, Worker.SetInteractive(InteractiveWaits(g))), s.me)
    case Work(we) => Sys(Captured(s.y, we.Spawn?), s.g, Worker.Next(s.w, we), s.me)
    case Restart(b) => Sys(FreshYield(b), FreshGate(b), Worker.Next(s.w, Worker.Crash), b.me)
  }

  ghost function Init(b: Boot, t: JobTable.Table, quantum: int, maxAttempts: int, now: int): (s: Sys)
    requires BootOk(b)
  {
    Sys(FreshYield(b), FreshGate(b), Worker.Init(t, quantum, maxAttempts, now), b.me)
  }

  // ----- the invariant -----

  ghost predicate Tied(s: Sys)
    requires Shape(s)
  {
    && s.g.reqs[s.me].pc.Other?
    && (s.w.pc.HoldsSlot() ==> Slot(s).Holding?)
    && (s.w.interactive <==> InteractiveWaits(s.g))
  }

  ghost predicate Inv(s: Sys) {
    && Yield.Inv(s.y) && Gate.Inv(s.g) && Worker.Inv(s.w)
    && GateSees(s.y, s.g) && WorkerSees(s.y, s.w)
    && Shape(s) && Tied(s)
  }

  lemma FreshSees(b: Boot, w: Worker.Sys)
    requires BootOk(b) && w.epoch == 0 && !w.yielding && !w.interactive && w.pc == Worker.Booting
    ensures var s := Sys(FreshYield(b), FreshGate(b), w, b.me);
            && Yield.Inv(s.y) && Gate.Inv(s.g) && GateSees(s.y, s.g) && WorkerSees(s.y, s.w) && Shape(s) && Tied(s)
  {
    Yield.InitInv(b.polls, b.timeouts, b.now, b.targets);
    Gate.InitInv(b.lim, b.cfg, b.bounded, b.kinds);
    StartsAgree(FreshYield(b), FreshGate(b), w);
    FreshTied(b, w);
  }

  lemma FreshTied(b: Boot, w: Worker.Sys)
    requires BootOk(b) && !w.interactive && w.pc == Worker.Booting
    ensures var s := Sys(FreshYield(b), FreshGate(b), w, b.me); Shape(s) && Tied(s)
  {
  }

  lemma InitInv(b: Boot, t: JobTable.Table, quantum: int, maxAttempts: int, now: int)
    requires BootOk(b)
    ensures Inv(Init(b, t, quantum, maxAttempts, now))
  {
    FreshSees(b, Worker.Init(t, quantum, maxAttempts, now));
  }

  lemma CaptureKeepsInv(y: Yield.Sys)
    requires Yield.Inv(y) && y.poller.Off?
    ensures Yield.Inv(Captured(y, true))
  {
    Yield.NextKeepsInv(y, Yield.Capture);
    assert Yield.Next(y, Yield.Capture) == Captured(y, true);
  }

  lemma YieldStepKeepsSlots(g: Gate.Sys, on: bool)
    ensures var g' := Gate.Next(g, Gate.SetYielding(on)); g'.slots == g.slots && g'.reqs == g.reqs
  {
  }

  lemma CtlKeepsInv(s: Sys, e: Yield.Event)
    requires Inv(s) && Enabled(s, Ctl(e))
    ensures Inv(Next(s, Ctl(e)))
  {
    var on := Yield.Next(s.y, e).ctl.effective;
    Yield.NextKeepsInv(s.y, e);
    Gate.NextKeepsInv(s.g, Gate.SetYielding(on));
    Worker.NextKeepsInv(s.w, Worker.SetYielding(on));
    StepIsSetYielding(s.y, e, s.g);
    StepIsSetYieldingForWorker(s.y, e, s.w);
    YieldStepKeepsSlots(s.g, on);
  }

  /** No Gate step takes the worker's slot away while it is in use. */
  lemma ReqKeepsSlot(s: Sys, ge: Gate.Event)
    requires Shape(s) && Tied(s) && Enabled(s, Req(ge))
    ensures var g := Gate.Next(s.g, ge);
            && Gate.Sized(g) && s.me < |g.reqs| && g.reqs[s.me].pc.Other?
            && (s.w.pc.HoldsSlot() ==> g.slots.phases[s.me].Holding?)
  {
    if ge.SlotStep? {
      Gate.SlotStepIsLocal(s.g.slots, ge.se);
    }
  }

  lemma ReqKeepsInv(s: Sys, ge: Gate.Event)
    requires Inv(s) && Enabled(s, Req(ge))
    ensures Inv(Next(s, Req(ge)))
  {
    var g := Gate.Next(s.g, ge);
    if ge.Dispatch? {
      CaptureKeepsInv(s.y);
    }
    Gate.NextKeepsInv(s.g, ge);
    Worker.NextKeepsInv(s.w, Worker.SetInteractive(InteractiveWaits(g)));
    OnlySetYieldingMoves(s.g, ge);
    ReqKeepsSlot(s, ge);
  }

  /** The worker only counts on a slot once it has one. */
  lemma WorkKeepsSlot(s: Sys, we: Worker.Event)
    requires Shape(s) && Tied(s) && Enabled(s, Work(we))
    ensures var w := Worker.Next(s.w, we);
            (w.pc.HoldsSlot() ==> Slot(s).Holding?) && w.interactive == s.w.interactive
  {
  }

  lemma WorkKeepsInv(s: Sys, we: Worker.Event)
    requires Inv(s) && Enabled(s, Work(we))
    ensures Inv(Next(s, Work(we)))
  {
    if we.Spawn? {
      CaptureKeepsInv(s.y);
    }
    Worker.NextKeepsInv(s.w, we);
    OnlySetYieldingMovesWorker(s.w, we);
    WorkKeepsSlot(s, we);
  }

  /** Every step of the broker keeps the three invariants, the two views, and the worker's slot. */
  lemma NextKeepsInv(s: Sys, e: Event)
    requires Inv(s) && Enabled(s, e)
    ensures Inv(Next(s, e))
  {
    match e
    case Ctl(e) => CtlKeepsInv(s, e);
    case Req(ge) => ReqKeepsInv(s, ge);
    case Work(we) => WorkKeepsInv(s, we);
    case Restart(b) =>
      Worker.NextKeepsInv(s.w, Worker.Crash);
      FreshSees(b, Worker.Next(s.w, Worker.Crash));
  }

  ghost predicate CanRun(s: Sys, es: seq<Event>)
    decreases |es|
  {
    Shape(s) && (es == [] || (Enabled(s, es[0]) && CanRun(Next(s, es[0]), es[1..])))
  }

  ghost function Run(s: Sys, es: seq<Event>): (s': Sys)
    requires CanRun(s, es)
    decreases |es|
  {
    if es == [] then s else Run(Next(s, es[0]), es[1..])
  }

  lemma {:induction false} RunKeepsInv(s: Sys, es: seq<Event>)
    requires Inv(s) && CanRun(s, es)
    ensures Inv(Run(s, es))
    decreases |es|
  {
    if es != [] {
      NextKeepsInv(s, es[0]);
      RunKeepsInv(Next(s, es[0]), es[1..]);
    }
  }

  /** `s` is reached from a process start by some run, restarts included. */
  ghost predicate Reachable(s: Sys) {
    exists b: Boot, t: JobTable.Table, quantum: int, maxAttempts: int, now: int, es: seq<Event> ::
      BootOk(b) && CanRun(Init(b, t, quantum, maxAttempts, now), es) && s == Run(Init(b, t, quantum, maxAttempts, now), es)
  }

  lemma ReachableInv(s: Sys)
    requires Reachable(s)
    ensures Inv(s)
  {
    var b: Boot, t: JobTable.Table, quantum: int, maxAttempts: int, now: int, es: seq<Event> :|
      BootOk(b) && CanRun(Init(b, t, quantum, maxAttempts, now), es) && s == Run(Init(b, t, quantum, maxAttempts, now), es);
    InitInv(b, t, quantum, maxAttempts, now);
    RunKeepsInv(Init(b, t, quantum, maxAttempts, now), es);
  }

  // ----- requests -----

  /** Nothing in `es` starts a new process. */
  ghost predicate OneProcess(es: seq<Event>) {
    forall k :: 0 <= k < |es| ==> !es[k].Restart?
  }

  lemma {:induction false} DoomedInBroker(s: Sys, es: seq<Event>, c: nat)
    requires CanRun(s, es) && OneProcess(es) && Gate.Doomed(s.g, c)
    ensures Gate.Doomed(Run(s, es).g, c)
    decreases |es|
  {
    if es != [] {
      var s' := Next(s, es[0]);
      match es[0] {
        case Ctl(e) => Gate.NextKeepsDoom(s.g, Gate.SetYielding(Yield.Next(s.y, e).ctl.effective), c);
        case Req(ge) => Gate.NextKeepsDoom(s.g, ge, c);
        case Work(_) => assert s'.g == s.g;
      }
      assert forall k :: 0 <= k < |es[1..]| ==> es[1..][k] == es[k + 1];
      DoomedInBroker(s', es[1..], c);
    }
  }

  /** The context a request at the upstream runs under. */
  ghost predicate ServedUnder(s: Sys, c: nat, ctx: nat) {
    c < |s.g.reqs| && (s.g.reqs[c].pc == Gate.Upstream(ctx) || s.g.reqs[c].pc == Gate.Answered(ctx))
  }

  lemma CancelledDooms(s: Sys, c: nat, ctx: nat)
    requires Gate.Linked(s.g) && GateSees(s.y, s.g) && ServedUnder(s, c, ctx) && ctx in s.y.ctl.cancelled
    ensures Gate.Doomed(s.g, c)
  {
    assert Gate.ConsistentAt(s.g, c);
  }

  /**
   Once the controller has cancelled the serve context a request runs under, the request records
   Preempted if it records anything, whatever the controller, the other requests and the worker do.
   */
  lemma CancelledContextPreempts(s: Sys, es: seq<Event>, c: nat, ctx: nat)
    requires Reachable(s) && ServedUnder(s, c, ctx) && ctx in s.y.ctl.cancelled
    requires CanRun(s, es) && OneProcess(es)
    ensures var r := Run(s, es).g.reqs;
            c < |r| && (r[c].outcomes == [] || r[c].outcomes == [Gate.Preempted])
  {
    ReachableInv(s);
    CancelledDooms(s, c, ctx);
    DoomedInBroker(s, es, c);
  }

  /** In particular one that is at the upstream at any moment at which the controller yields. */
  lemma YieldPreempts(s: Sys, es: seq<Event>, c: nat, ctx: nat)
    requires Reachable(s) && CanRun(s, es) && OneProcess(es)
    requires ServedUnder(s, c, ctx) && s.y.ctl.effective
    ensures ctx in s.y.ctl.cancelled
    ensures var r := Run(s, es).g.reqs;
            c < |r| && (r[c].outcomes == [] || r[c].outcomes == [Gate.Preempted])
  {
    ReachableInv(s);
    assert Gate.ConsistentAt(s.g, c);
    CancelledContextPreempts(s, es, c, ctx);
  }

  /** And one admitted before the yield that takes its serve context during it. */
  lemma LateDispatchIsPreempted(s: Sys, es: seq<Event>, c: nat)
    requires Reachable(s) && s.y.ctl.effective && Gate.IsPc(s.g, c, Gate.Admitted)
    requires CanRun(s, es) && OneProcess(es) && es != [] && es[0] == Req(Gate.Dispatch(c))
    ensures var r := Run(s, es).g.reqs;
            c < |r| && (r[c].outcomes == [] || r[c].outcomes == [Gate.Preempted])
  {
    ReachableInv(s);
    DispatchDooms(s.g, c);
    assert forall k :: 0 <= k < |es[1..]| ==> es[1..][k] == es[k + 1];
    DoomedInBroker(Next(s, es[0]), es[1..], c);
  }

  lemma DispatchDooms(g: Gate.Sys, c: nat)
    requires Gate.Linked(g) && g.Yielding() && Gate.IsPc(g, c, Gate.Admitted)
    ensures Gate.Doomed(Gate.Next(g, Gate.Dispatch(c)), c)
  {
    assert Gate.ConsistentAt(g, c);
  }

  /** A request that records its outcome records Preempted iff the controller has cancelled its context. */
  lemma PreemptedIff(s: Sys, c: nat, ctx: nat, deadlineHit: bool)
    requires Reachable(s) && c < |s.g.reqs| && s.g.reqs[c].pc == Gate.Answered(ctx)
    requires Gate.Enabled(s.g, Gate.Record(c, deadlineHit))
    ensures Gate.Next(s.g, Gate.Record(c, deadlineHit)).reqs[c].outcomes == [Gate.Preempted] <==> ctx in s.y.ctl.cancelled
  {
    ReachableInv(s);
    assert ctx <= s.g.epoch && s.g.reqs[c].outcomes == [] by {
      assert Gate.ConsistentAt(s.g, c);
    }
    RecordSaysCancelled(s.g, c, deadlineHit);
  }

  lemma RecordSaysCancelled(g: Gate.Sys, c: nat, deadlineHit: bool)
    requires Gate.Enabled(g, Gate.Record(c, deadlineHit)) && g.reqs[c].outcomes == []
    ensures Gate.Next(g, Gate.Record(c, deadlineHit)).reqs[c].outcomes == [Gate.Preempted]
            <==> g.Cancelled(g.reqs[c].pc.ctx)
  {
    var outcomes := Gate.Next(g, Gate.Record(c, deadlineHit)).reqs[c].outcomes;
    assert |outcomes| == 1 && (outcomes[0] == Gate.Preempted <==> g.Cancelled(g.reqs[c].pc.ctx));
  }

  // ----- the worker -----

  /** runJob takes a failed run for yielded iff the controller has cancelled the context it captured. */
  lemma YieldedIff(s: Sys)
    requires Reachable(s) && s.w.pc == Worker.AskYield
    ensures Worker.Answer(s.w, true) == Worker.Requeueing <==> s.w.run.ctx in s.y.ctl.cancelled
  {
    ReachableInv(s);
  }

  /** Nothing in `es` ends the worker's run. */
  ghost predicate SameRun(es: seq<Event>) {
    OneProcess(es) && forall k :: 0 <= k < |es| ==> !(es[k].Work? && es[k].we.End?)
  }

  /** What the worker's own model sees of a run of the broker. */
  ghost function WorkerEvents(s: Sys, es: seq<Event>): (r: seq<Worker.Event>)
    requires CanRun(s, es) && OneProcess(es)
    decreases |es|
  {
    if es == [] then []
    else
      assert forall k :: 0 <= k < |es[1..]| ==> es[1..][k] == es[k + 1];
      [WorkerEvent(s, es[0])] + WorkerEvents(Next(s, es[0]), es[1..])
  }

  ghost function WorkerEvent(s: Sys, e: Event): (r: Worker.Event)
    requires Shape(s) && Enabled(s, e) && !e.Restart?
  {
    match e
    case Ctl(ce) => Worker.SetYielding(Yield.Next(s.y, ce).ctl.effective)
    case Req(ge) => Worker.SetInteractive(InteractiveWaits(Gate.Next(s.g, ge)))
    case Work(we) => we
  }

  lemma {:induction false} WorkerProjection(s: Sys, es: seq<Event>)
    requires CanRun(s, es) && OneProcess(es)
    ensures Worker.CanRun(s.w, WorkerEvents(s, es)) && Worker.Run(s.w, WorkerEvents(s, es)) == Run(s, es).w
    ensures SameRun(es) ==> Worker.SameRun(WorkerEvents(s, es))
    decreases |es|
  {
    if es != [] {
      assert forall k :: 0 <= k < |es[1..]| ==> es[1..][k] == es[k + 1];
      var first, rest := WorkerEvent(s, es[0]), WorkerEvents(Next(s, es[0]), es[1..]);
      WorkerProjection(Next(s, es[0]), es[1..]);
      Worker.RunCons(s.w, first, rest);
      assert WorkerEvents(s, es) == [first] + rest;
    }
  }

  lemma FailureUnderCancelled(s: Sys)
    requires Worker.RunOk(s.w) && WorkerSees(s.y, s.w)
    requires s.w.pc == Worker.Generating && s.w.run.ctx in s.y.ctl.cancelled
    ensures var w := Worker.Next(s.w, Worker.GenerateFails);
            w.run.aborted && w.run.id == s.w.run.id && w.t == s.w.t && w.pc.PastGenerate()
  {
  }

  /** A run whose Generate fails after the controller has cancelled its serve context is never charged for it. */
  lemma YieldedRunIsNeverCharged(s: Sys, es: seq<Event>)
    requires Reachable(s) && Shape(s) && s.w.pc == Worker.Generating && s.w.run.ctx in s.y.ctl.cancelled
    requires Enabled(s, Work(Worker.GenerateFails)) && CanRun(Next(s, Work(Worker.GenerateFails)), es) && SameRun(es)
    requires s.w.run.id in s.w.t && s.w.run.id in Run(Next(s, Work(Worker.GenerateFails)), es).w.t
    ensures Run(Next(s, Work(Worker.GenerateFails)), es).w.t[s.w.run.id].attempts == s.w.t[s.w.run.id].attempts
  {
    ReachableInv(s);
    var s1 := Next(s, Work(Worker.GenerateFails));
    NextKeepsInv(s, Work(Worker.GenerateFails));
    FailureUnderCancelled(s);
    WorkerProjection(s1, es);
    Worker.AbortedIsNeverCharged(s1.w, WorkerEvents(s1, es));
  }

  // ----- the slots they share -----

  /** The clients that use the GPU: requests at the upstream, and the worker while it holds its slot. */
  function OnGpu(s: Sys): (r: set<nat>) {
    Gate.AtUpstream(s.g) + if s.w.pc.HoldsSlot() then {s.me} else {}
  }

  lemma UsersOwnSlots(s: Sys, c: nat)
    requires Shape(s) && Tied(s) && Gate.Linked(s.g) && c in OnGpu(s)
    ensures c in s.g.slots.Owners()
  {
    if c != s.me {
      assert Gate.ConsistentAt(s.g, c);
    }
  }

  lemma WorkerIsExtra(s: Sys)
    requires Shape(s) && Tied(s)
    ensures |OnGpu(s)| == |Gate.AtUpstream(s.g)| + (if s.w.pc.HoldsSlot() then 1 else 0)
  {
    assert s.me !in Gate.AtUpstream(s.g);
  }

  lemma OwnersFit(g: Slots.Sys)
    requires Slots.Inv(g)
    ensures |g.Owners()| <= g.lim.maxInflight
    ensures g.core.iq != [] ==> g.core.inflight == g.lim.maxInflight
  {
  }

  /** Requests at the upstream and a job being run never add up to more than the scheduler has slots. */
  lemma GpuNeverOversubscribed(s: Sys)
    requires Reachable(s)
    ensures |Gate.AtUpstream(s.g)| + (if s.w.pc.HoldsSlot() then 1 else 0) <= s.g.slots.lim.maxInflight
  {
    ReachableInv(s);
    forall c | c in OnGpu(s)
      ensures c in s.g.slots.Owners()
    {
      UsersOwnSlots(s, c);
    }
    Gate.SubsetIsNoLarger(OnGpu(s), s.g.slots.Owners());
    WorkerIsExtra(s);
    OwnersFit(s.g.slots);
  }

  /** A RUNNING job owns a slot of the scheduler through the worker, or its last write failed. */
  lemma RunningOwnsSlot(s: Sys, id: JobTable.Id)
    requires Reachable(s) && s.w.pc != Worker.Booting && JobTable.IsRunning(s.w.t, id)
    ensures id in s.w.left || (id == s.w.run.id && s.me < |s.g.slots.phases| && s.g.slots.Owns(s.me))
  {
    ReachableInv(s);
  }

  lemma PreemptGuard(w: Worker.Sys)
    requires Worker.Enabled(w, Worker.MonitorPreempts)
    ensures w.now - w.run.start >= w.quantum && w.interactive
  {
  }

  /** The monitor preempts a run only after its quantum and while an interactive request waits for a slot. */
  lemma PreemptsOnlyForWaiting(s: Sys)
    requires Reachable(s) && Shape(s) && Enabled(s, Work(Worker.MonitorPreempts))
    ensures s.w.now - s.w.run.start >= s.w.quantum
    ensures s.g.slots.core.iq != [] && s.g.slots.core.inflight == s.g.slots.lim.maxInflight
  {
    PreemptGuard(s.w);
    ReachableInv(s);
    OwnersFit(s.g.slots);
  }
}
