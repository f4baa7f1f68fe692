/**
 Any number of requests going through Gate: the admission loop over the park queue and the
 scheduler, then the serving phase. Client `c` of the scheduler, client `c` of the park queue
 and request `c` are the same; clients that are not requests (the Job worker) share the
 scheduler with them.
 */
module Gate {
  import opened Wrappers
  import opened SchedulerSpec
  import opened ParkSpec
  import Slots = SchedulerRaces
  import Parks = ParkRaces

  datatype Pc =
    | Other                // not a request: any use of the scheduler
    | Top                  // about to probe Yielding on entry to the loop
    | Parking              // in parkFor
    | Asking               // about to call Acquire
    | Acquiring            // blocked in Acquire, or handing on a slot it no longer wants
    | Refused              // Acquire returned an error
    | GotSlot              // holds the slot, about to probe Yielding again
    | Backoff              // saw the yield, about to release
    | BackedOff            // released
    | Admitted             // past admission, serve context not read yet
    | Upstream(ctx: nat)   // next.ServeHTTP is running
    | Answered(ctx: nat)   // next.ServeHTTP has returned
    | Unwinding            // the deferred Release is still to run
    | Done

  datatype Outcome = Deferred | ParkExpired | ParkRejected | ClientGone | CrashFailed | Served | Preempted | UpstreamTimeout

  /**
   `got` and `freed` count successful Acquires and the Releases that answer them. `clear` says that
   the probe after the last of them has been made and saw no yield, `refused` that an Acquire failed.
   */
  datatype Req = Req(
    pc: Pc, cls: Class, got: nat, freed: nat, calls: nat, outcomes: seq<Outcome>, panicked: bool,
    clear: bool, refused: bool)
  {
    function At(pc: Pc): (r': Req) {
      this.(pc := pc)
    }

    function Records(pc: Pc, outcome: Outcome): (r': Req) {
      this.(pc := pc, outcomes := outcomes + [outcome])
    }
  }

  /** Serve contexts are numbered; `epoch` is the current one. `bounded` says whether upstreamTimeout > 0. */
  datatype Sys = Sys(slots: Slots.Sys, park: Parks.Sys, epoch: nat, bounded: bool, reqs: seq<Req>) {
    predicate Yielding() {
      park.yielding
    }

    /** Every earlier context was cancelled when its yield began; the current one is while yielding. */
    predicate Cancelled(ctx: nat) {
      ctx < epoch || Yielding()
    }

    predicate ParkEnabled() {
      park.cfg.maxQueue != 0
    }
  }

  datatype Event =
    | ProbeTop(c: nat)
    | ParkStep(pe: Parks.Event)
    | Unpark(c: nat)
    | SlotStep(se: Slots.Event)
    | Refuse(c: nat)
    | ProbeHeld(c: nat)
    | LoopBack(c: nat)
    | Dispatch(c: nat)
    | Answer(c: nat)
    | PanicUpstream(c: nat)
    | Record(c: nat, deadlineHit: bool)
    | SetYielding(on: bool)

  predicate IsPc(s: Sys, c: nat, pc: Pc) {
    c < |s.reqs| && s.reqs[c].pc == pc
  }

  /** Which park steps a request may take inside parkFor, and which belong to others. */
  predicate ParkStepAllowed(s: Sys, pe: Parks.Event) {
    match pe
    case Take(_) => false
    case SetYielding(_) => false
    case HangUp(_) => true
    case ShutDown => true
    case Probe => true
    case Look => true
    case Splice => true
    case CloseOne => true
    case _ => IsPc(s, pe.c, Parking)
  }

  predicate SlotStepAllowed(s: Sys, se: Slots.Event) {
    && se.c < |s.reqs|
    && (IsPc(s, se.c, Other) ||
        match se
        case Acquire(c, cls) => IsPc(s, c, Asking) && cls == s.reqs[c].cls
        case Free(c) => IsPc(s, c, Acquiring) || IsPc(s, c, Backoff) || IsPc(s, c, Unwinding)
        case _ => IsPc(s, se.c, Acquiring))
  }

  predicate Enabled(s: Sys, e: Event) {
    match e
    case ProbeTop(c) => IsPc(s, c, Top)
    case ParkStep(pe) => ParkStepAllowed(s, pe) && Parks.Enabled(s.park, pe)
    case Unpark(c) => IsPc(s, c, Parking) && Parks.Enabled(s.park, Parks.Take(c))
    case SlotStep(se) => SlotStepAllowed(s, se) && Slots.Enabled(s.slots, se)
    case Refuse(c) => IsPc(s, c, Refused)
    case ProbeHeld(c) => IsPc(s, c, GotSlot)
    case LoopBack(c) => IsPc(s, c, BackedOff)
    case Dispatch(c) => IsPc(s, c, Admitted)
    case Answer(c) => c < |s.reqs| && s.reqs[c].pc.Upstream?
    case PanicUpstream(c) => c < |s.reqs| && s.reqs[c].pc.Upstream?
    case Record(c, deadlineHit) => c < |s.reqs| && s.reqs[c].pc.Answered? && (deadlineHit ==> s.bounded)
    case SetYielding(_) => true
  }

  /** Where a request stands once its scheduler step has moved it from `before` to `after`. */
  function AfterSlotStep(r: Req, before: Slots.Phase, after: Slots.Phase): (r': Req) {
    match r.pc
    case Other => r
    case Backoff => r.(pc := BackedOff, freed := r.freed + 1)
    case Unwinding => r.(pc := Done, freed := r.freed + 1)
    case _ =>
      if after.Holding? then r.(pc := GotSlot, got := r.got + 1, clear := false)
      else if after.Idle? then r.(pc := Refused, refused := true)
      else r.(pc := Acquiring)
  }

  predicate LocalStep(e: Event) {
    !(e.ParkStep? || e.Unpark? || e.SetYielding? || e.SlotStep?)
  }

  predicate SameClients(s: Sys, s': Sys) {
    |s'.reqs| == |s.reqs| && |s'.slots.phases| == |s.slots.phases| && |s'.park.clients| == |s.park.clients|
  }

  /** What a request makes of a step of its own: any but those in the scheduler and the park queue. */
  function Move(s: Sys, e: Event): (r': Req)
    requires Enabled(s, e) && (LocalStep(e) || e.Unpark?)
  {
    var r := s.reqs[e.c];
    match e
    case ProbeTop(_) =>
      if !s.Yielding() then r.At(Asking)
      else if r.cls != Batch || !s.ParkEnabled() then r.Records(Done, Deferred)
      else r.At(Parking)
    case Unpark(c) =>
      (match s.park.clients[c].phase.result
       case Released => r.At(Top)
       case Expired => r.Records(Done, ParkExpired)
       case Rejected => r.Records(Done, ParkRejected)
       case Canceled => r.Records(Done, ClientGone)
       case Shutdown => r.Records(Done, CrashFailed))
    case Refuse(_) => r.Records(Done, Deferred)
    case ProbeHeld(_) => r.(pc := if s.Yielding() then Backoff else Admitted, clear := !s.Yielding())
    case LoopBack(_) => if r.cls != Batch || !s.ParkEnabled() then r.Records(Done, Deferred) else r.At(Top)
    case Dispatch(_) => r.(pc := Upstream(s.epoch), calls := r.calls + 1)
    case Answer(_) => r.At(Answered(r.pc.ctx))
    case PanicUpstream(_) => r.(pc := Unwinding, panicked := true)
    case Record(_, deadlineHit) =>
      r.Records(Unwinding, if s.Cancelled(r.pc.ctx) then Preempted else if deadlineHit then UpstreamTimeout else Served)
  }

  function Next(s: Sys, e: Event): (s': Sys)
    requires Enabled(s, e)
    ensures SameClients(s, s')
  {
    match e
    case ParkStep(pe) => s.(park := Parks.Next(s.park, pe))
    case SlotStep(se) =>
      var slots' := Slots.Next(s.slots, se);
      var r' := AfterSlotStep(s.reqs[se.c], s.slots.phases[se.c], slots'.phases[se.c]);
      s.(slots := slots', reqs := s.reqs[se.c := r'])
    case SetYielding(on) =>
      s.(park := Parks.Next(s.park, Parks.SetYielding(on)),
         epoch := if s.Yielding() && !on then s.epoch + 1 else s.epoch)
    case Unpark(c) => s.(park := Parks.Next(s.park, Parks.Take(c)), reqs := s.reqs[c := Move(s, e)])
    case _ => s.(reqs := s.reqs[e.c := Move(s, e)])
  }

  predicate CanRun(s: Sys, es: seq<Event>)
    decreases |es|
  {
    es == [] || (Enabled(s, es[0]) && CanRun(Next(s, es[0]), es[1..]))
  }

  function Run(s: Sys, es: seq<Event>): (s': Sys)
    requires CanRun(s, es)
    ensures SameClients(s, s')
    decreases |es|
  {
    if es == [] then s else Run(Next(s, es[0]), es[1..])
  }

  function NewReq(kind: Option<Class>): (r: Req) {
    match kind
    case Some(cls) => Req(Top, cls, 0, 0, 0, [], false, false, false)
    case None => Req(Other, Batch, 0, 0, 0, [], false, false, false)
  }

  /** One request per `Some` of its class, one other scheduler client per `None`. */
  function Init(lim: Limits, cfg: ParkConfig, bounded: bool, kinds: seq<Option<Class>>): (s: Sys) {
    Sys(Slots.Init(lim, |kinds|), Parks.Init(cfg, |kinds|), 0, bounded,
        seq(|kinds|, c requires 0 <= c < |kinds| => NewReq(kinds[c])))
  }

  // ----- the invariant -----

  predicate InAcquire(p: Slots.Phase, cls: Class) {
    ((p.Waiting? || p.Canceling?) && p.cls == cls) || p.HandingOn?
  }

  /** What `pc` says about the slot, the park queue and the counters. */
  predicate Consistent(r: Req, slot: Slots.Phase, park: Parks.Phase, epoch: nat, parkEnabled: bool) {
    && (r.pc != Parking ==> park.Out?)
    && (r.panicked ==> r.pc in {Unwinding, Done} && r.calls == 1)
    && match r.pc
       case Other => r.got == r.freed && r.calls == 0 && r.outcomes == []
       case Parking => slot.Idle? && r.got == r.freed && r.calls == 0 && r.outcomes == [] && r.cls == Batch && parkEnabled
       case Acquiring => InAcquire(slot, r.cls) && r.got == r.freed && r.calls == 0 && r.outcomes == []
       case GotSlot => slot.Holding? && r.got == r.freed + 1 && r.calls == 0 && r.outcomes == []
       case Backoff => slot.Holding? && r.got == r.freed + 1 && r.calls == 0 && r.outcomes == []
       case Admitted => slot.Holding? && r.got == r.freed + 1 && r.calls == 0 && r.outcomes == []
       case Upstream(ctx) => slot.Holding? && r.got == r.freed + 1 && r.calls == 1 && r.outcomes == [] && ctx <= epoch
       case Answered(ctx) => slot.Holding? && r.got == r.freed + 1 && r.calls == 1 && r.outcomes == [] && ctx <= epoch
       case Unwinding => slot.Holding? && r.got == r.freed + 1 && r.calls == 1 && |r.outcomes| == (if r.panicked then 0 else 1)
       case Done => slot.Idle? && r.got == r.freed && r.calls <= 1 && |r.outcomes| == (if r.panicked then 0 else 1)
       case _ => slot.Idle? && r.got == r.freed && r.calls == 0 && r.outcomes == []
  }

  predicate Sized(s: Sys) {
    |s.slots.phases| == |s.reqs| && |s.park.clients| == |s.reqs|
  }

  predicate ConsistentAt(s: Sys, c: nat)
    requires Sized(s) && c < |s.reqs|
  {
    Consistent(s.reqs[c], s.slots.phases[c], s.park.clients[c].phase, s.epoch, s.ParkEnabled())
  }

  ghost predicate Linked(s: Sys) {
    Sized(s) && forall c :: 0 <= c < |s.reqs| ==> ConsistentAt(s, c)
  }

  /** What `pc` says about the probe made with the slot in hand, and about a failed Acquire. */
  predicate Probed(r: Req) {
    && (r.pc == Admitted || r.pc.Upstream? || r.pc.Answered? ==> r.clear)
    && (r.pc == Backoff || r.pc == BackedOff ==> !r.clear)
    && (r.pc == Refused ==> r.refused)
  }

  ghost predicate AllProbed(s: Sys) {
    forall c :: 0 <= c < |s.reqs| ==> Probed(s.reqs[c])
  }

  ghost predicate Inv(s: Sys) {
    Slots.Inv(s.slots) && Parks.Inv(s.park) && Linked(s) && AllProbed(s)
  }

  lemma SlotStepIsLocal(s: Slots.Sys, se: Slots.Event)
    requires Slots.Enabled(s, se)
    ensures Slots.Next(s, se).phases == s.phases[se.c := Slots.Next(s, se).phases[se.c]]
  {
  }

  lemma ParkStepIsLocal(s: Parks.Sys, pe: Parks.Event)
    requires Parks.Enabled(s, pe)
    ensures |Parks.Next(s, pe).clients| == |s.clients| && Parks.Next(s, pe).cfg == s.cfg
    ensures forall c :: 0 <= c < |s.clients| && Parks.Next(s, pe).clients[c].phase != s.clients[c].phase ==>
              !(pe.HangUp? || pe.ShutDown? || pe.Probe? || pe.Look? || pe.Splice? || pe.CloseOne? || pe.SetYielding?)
              && c == pe.c
  {
  }

  lemma SlotStepKeepsLinks(s: Sys, se: Slots.Event)
    requires Linked(s) && Enabled(s, SlotStep(se))
    ensures Linked(Next(s, SlotStep(se)))
  {
    var s' := Next(s, SlotStep(se));
    SlotStepIsLocal(s.slots, se);
    forall c | 0 <= c < |s'.reqs|
      ensures ConsistentAt(s', c)
    {
      assert ConsistentAt(s, c);
    }
  }

  lemma ParkStepKeepsLinks(s: Sys, pe: Parks.Event)
    requires Linked(s) && Enabled(s, ParkStep(pe))
    ensures Linked(Next(s, ParkStep(pe)))
  {
    var s' := Next(s, ParkStep(pe));
    ParkStepIsLocal(s.park, pe);
    forall c | 0 <= c < |s'.reqs|
      ensures ConsistentAt(s', c)
    {
      assert ConsistentAt(s, c);
    }
  }

  lemma UnparkIsLocal(s: Sys, c: nat)
    requires Sized(s) && Enabled(s, Unpark(c))
    ensures var s' := Next(s, Unpark(c));
            && s'.slots == s.slots && s'.epoch == s.epoch && s'.park.cfg == s.park.cfg
            && s'.reqs == s.reqs[c := Move(s, Unpark(c))]
            && s'.park.clients == s.park.clients[c := s.park.clients[c].(phase := Parks.Out)]
  {
  }

  lemma UnparkedIsConsistent(s: Sys, c: nat)
    requires Linked(s) && Enabled(s, Unpark(c))
    ensures Consistent(Move(s, Unpark(c)), s.slots.phases[c], Parks.Out, s.epoch, s.ParkEnabled())
  {
    assert ConsistentAt(s, c);
  }

  lemma UnparkKeepsLinks(s: Sys, c: nat)
    requires Linked(s) && Enabled(s, Unpark(c))
    ensures Linked(Next(s, Unpark(c)))
  {
    var s' := Next(s, Unpark(c));
    UnparkIsLocal(s, c);
    UnparkedIsConsistent(s, c);
    forall d | 0 <= d < |s'.reqs| && d != c
      ensures ConsistentAt(s', d)
    {
      assert ConsistentAt(s, d);
    }
  }

  lemma SetYieldingKeepsLinks(s: Sys, on: bool)
    requires Linked(s)
    ensures Linked(Next(s, SetYielding(on)))
  {
    var s' := Next(s, SetYielding(on));
    assert s'.park.clients == s.park.clients;
    forall d | 0 <= d < |s'.reqs|
      ensures ConsistentAt(s', d)
    {
      assert ConsistentAt(s, d);
    }
  }

  /** A step a request takes alone touches nothing but the request. */
  lemma LocalStepIsLocal(s: Sys, e: Event)
    requires Enabled(s, e) && LocalStep(e)
    ensures e.c < |s.reqs| && Next(s, e) == s.(reqs := s.reqs[e.c := Move(s, e)])
  {
  }

  lemma LocalStepKeepsOwn(s: Sys, e: Event)
    requires Linked(s) && Enabled(s, e) && LocalStep(e)
    ensures Consistent(Move(s, e), s.slots.phases[e.c], s.park.clients[e.c].phase, s.epoch, s.ParkEnabled())
  {
    assert ConsistentAt(s, e.c);
  }

  lemma LocalStepKeepsLinks(s: Sys, e: Event)
    requires Linked(s) && Enabled(s, e) && LocalStep(e)
    ensures Linked(Next(s, e))
  {
    var s' := Next(s, e);
    LocalStepIsLocal(s, e);
    LocalStepKeepsOwn(s, e);
    forall c | 0 <= c < |s'.reqs| && c != e.c
      ensures ConsistentAt(s', c)
    {
      assert ConsistentAt(s, c);
    }
  }

  lemma SlotStepKeepsProbed(s: Sys, se: Slots.Event)
    requires AllProbed(s) && Enabled(s, SlotStep(se))
    ensures AllProbed(Next(s, SlotStep(se)))
  {
  }

  lemma StepKeepsProbed(s: Sys, e: Event)
    requires AllProbed(s) && Enabled(s, e)
    ensures AllProbed(Next(s, e))
  {
    if e.SlotStep? {
      SlotStepKeepsProbed(s, e.se);
    } else if LocalStep(e) {
      LocalStepKeepsProbed(s, e);
    }
  }

  lemma LocalStepKeepsProbed(s: Sys, e: Event)
    requires AllProbed(s) && Enabled(s, e) && LocalStep(e)
    ensures AllProbed(Next(s, e))
  {
    LocalStepIsLocal(s, e);
    assert Probed(s.reqs[e.c]);
  }

  lemma StepKeepsLinks(s: Sys, e: Event)
    requires Linked(s) && Enabled(s, e)
    ensures Linked(Next(s, e))
  {
    match e
    case SlotStep(se) => SlotStepKeepsLinks(s, se);
    case ParkStep(pe) => ParkStepKeepsLinks(s, pe);
    case Unpark(c) => UnparkKeepsLinks(s, c);
    case SetYielding(on) => SetYieldingKeepsLinks(s, on);
    case _ => LocalStepKeepsLinks(s, e);
  }

  lemma StepKeepsSlotsInv(s: Sys, e: Event)
    requires Slots.Inv(s.slots) && Enabled(s, e)
    ensures Slots.Inv(Next(s, e).slots)
  {
    if e.SlotStep? {
      Slots.NextKeepsInv(s.slots, e.se);
    }
  }

  lemma StepKeepsParkInv(s: Sys, e: Event)
    requires Parks.Inv(s.park) && Enabled(s, e)
    ensures Parks.Inv(Next(s, e).park)
  {
    match e
    case ParkStep(pe) => Parks.NextKeepsInv(s.park, pe);
    case Unpark(c) => Parks.NextKeepsInv(s.park, Parks.Take(c));
    case SetYielding(on) => Parks.NextKeepsInv(s.park, Parks.SetYielding(on));
    case _ =>
  }

  lemma NextKeepsInv(s: Sys, e: Event)
    requires Inv(s) && Enabled(s, e)
    ensures Inv(Next(s, e))
  {
    StepKeepsSlotsInv(s, e);
    StepKeepsParkInv(s, e);
    StepKeepsLinks(s, e);
    StepKeepsProbed(s, e);
  }

  lemma {:induction false} RunKeepsInv(s: Sys, es: seq<Event>)
    requires Inv(s) && CanRun(s, es)
    ensures Inv(Run(s, es))
    decreases |es|
  {
    if es != [] {
      NextKeepsInv(s, es[0]);
      RunKeepsInv(Next(s, es[0]), es[1..]);
    }
  }

  lemma InitInv(lim: Limits, cfg: ParkConfig, bounded: bool, kinds: seq<Option<Class>>)
    requires 1 <= lim.maxInflight && 1 <= lim.maxWaiters
    ensures Inv(Init(lim, cfg, bounded, kinds))
  {
    Slots.InitInv(lim, |kinds|);
    Parks.InitInv(cfg, |kinds|);
  }

  // ----- what holds over whole runs -----

  /**
   A request holds a slot exactly between a successful Acquire and the one Release that answers
   it, never while parked; it reaches the upstream at most once; and once it is over it has
   recorded exactly one outcome, unless the upstream handler panicked.
   */
  lemma EveryExitPath(lim: Limits, cfg: ParkConfig, bounded: bool, kinds: seq<Option<Class>>, es: seq<Event>, c: nat)
    requires 1 <= lim.maxInflight && 1 <= lim.maxWaiters
    requires CanRun(Init(lim, cfg, bounded, kinds), es) && c < |kinds|
    requires Run(Init(lim, cfg, bounded, kinds), es).reqs[c].pc != Other
    ensures var s := Run(Init(lim, cfg, bounded, kinds), es);
            var r := s.reqs[c];
            && r.got == r.freed + (if s.slots.phases[c].Holding? then 1 else 0)
            && (!s.park.clients[c].phase.Out? ==> !s.slots.Owns(c) && r.cls == Batch && s.ParkEnabled())
            && r.calls <= 1
            && (r.pc == Done ==> !s.slots.Owns(c) && |r.outcomes| <= 1 && (r.outcomes == [] <==> r.panicked))
            && (r.pc.Upstream? ==> s.slots.Owns(c))
  {
    var s := Run(Init(lim, cfg, bounded, kinds), es);
    InitInv(lim, cfg, bounded, kinds);
    RunKeepsInv(Init(lim, cfg, bounded, kinds), es);
    assert ConsistentAt(s, c);
  }

  /** A request reaches the upstream only if the probe after its last successful Acquire saw no yield, and backs off only if it saw one. */
  lemma AdmittedOnlyWhenClear(lim: Limits, cfg: ParkConfig, bounded: bool, kinds: seq<Option<Class>>, es: seq<Event>, c: nat)
    requires 1 <= lim.maxInflight && 1 <= lim.maxWaiters
    requires CanRun(Init(lim, cfg, bounded, kinds), es) && c < |kinds|
    ensures var r := Run(Init(lim, cfg, bounded, kinds), es).reqs[c];
            && (r.pc == Admitted || r.pc.Upstream? || r.pc.Answered? ==> r.clear)
            && (r.pc == Backoff || r.pc == BackedOff ==> !r.clear)
  {
    var s := Run(Init(lim, cfg, bounded, kinds), es);
    InitInv(lim, cfg, bounded, kinds);
    RunKeepsInv(Init(lim, cfg, bounded, kinds), es);
    assert ConsistentAt(s, c);
  }

  /** The probe of a request that holds a slot: it goes on iff nobody yields at that moment. */
  lemma ProbeDecides(s: Sys, c: nat)
    requires Enabled(s, ProbeHeld(c))
    ensures var r' := Next(s, ProbeHeld(c)).reqs[c];
            (r'.pc == Admitted && r'.clear <==> !s.Yielding()) && (r'.pc == Backoff && !r'.clear <==> s.Yielding())
  {
  }

  // ----- a broker that never yields -----

  /** Nothing in `es` starts a yield. */
  ghost predicate NeverYields(es: seq<Event>) {
    forall k :: 0 <= k < |es| ==> es[k] != SetYielding(true)
  }

  /** What a request may have come to when there never was a yield. */
  predicate Calm(r: Req, park: Parks.Phase, epoch: nat) {
    && r.pc != Parking && r.pc != Backoff && r.pc != BackedOff && park.Out?
    && (r.pc.Upstream? || r.pc.Answered? ==> r.pc.ctx == epoch)
    && forall k :: 0 <= k < |r.outcomes| ==>
         || (r.outcomes[k] == Deferred && r.refused)
         || r.outcomes[k] == Served || r.outcomes[k] == UpstreamTimeout
  }

  ghost predicate AllCalm(s: Sys) {
    !s.Yielding() && Sized(s) && forall c :: 0 <= c < |s.reqs| ==> Calm(s.reqs[c], s.park.clients[c].phase, s.epoch)
  }

  lemma LocalStepKeepsCalm(s: Sys, e: Event)
    requires Linked(s) && AllProbed(s) && AllCalm(s) && Enabled(s, e) && LocalStep(e)
    ensures AllCalm(Next(s, e))
  {
    LocalStepIsLocal(s, e);
    assert ConsistentAt(s, e.c) && Probed(s.reqs[e.c]) && Calm(s.reqs[e.c], s.park.clients[e.c].phase, s.epoch);
    forall c | 0 <= c < |s.reqs| && c != e.c
      ensures Calm(Next(s, e).reqs[c], s.park.clients[c].phase, s.epoch)
    {
      assert Calm(s.reqs[c], s.park.clients[c].phase, s.epoch);
    }
  }

  lemma SlotStepKeepsCalm(s: Sys, se: Slots.Event)
    requires AllCalm(s) && Enabled(s, SlotStep(se))
    ensures AllCalm(Next(s, SlotStep(se)))
  {
    forall c | 0 <= c < |s.reqs|
      ensures Calm(Next(s, SlotStep(se)).reqs[c], s.park.clients[c].phase, s.epoch)
    {
      assert Calm(s.reqs[c], s.park.clients[c].phase, s.epoch);
    }
  }

  lemma ParkStepKeepsCalm(s: Sys, pe: Parks.Event)
    requires AllCalm(s) && Enabled(s, ParkStep(pe))
    ensures AllCalm(Next(s, ParkStep(pe)))
  {
    ParkStepIsLocal(s.park, pe);
    forall c | 0 <= c < |s.reqs|
      ensures Calm(s.reqs[c], Next(s, ParkStep(pe)).park.clients[c].phase, s.epoch)
    {
      assert Calm(s.reqs[c], s.park.clients[c].phase, s.epoch);
    }
  }

  lemma CalmNeverUnparks(s: Sys, e: Event)
    requires AllCalm(s) && Enabled(s, e)
    ensures !e.Unpark?
  {
    assert forall c :: 0 <= c < |s.reqs| ==> s.reqs[c].pc != Parking;
  }

  lemma StepKeepsCalm(s: Sys, e: Event)
    requires Linked(s) && AllProbed(s) && AllCalm(s) && Enabled(s, e) && e != SetYielding(true)
    ensures AllCalm(Next(s, e))
  {
    CalmNeverUnparks(s, e);
    if e.SlotStep? {
      SlotStepKeepsCalm(s, e.se);
    } else if e.ParkStep? {
      ParkStepKeepsCalm(s, e.pe);
    } else if LocalStep(e) {
      LocalStepKeepsCalm(s, e);
    } else {
      assert Next(s, e).reqs == s.reqs && Next(s, e).park.clients == s.park.clients;
    }
  }

  lemma {:induction false} RunKeepsCalm(s: Sys, es: seq<Event>)
    requires Inv(s) && AllCalm(s) && CanRun(s, es) && NeverYields(es)
    ensures AllCalm(Run(s, es))
    decreases |es|
  {
    if es != [] {
      NextKeepsInv(s, es[0]);
      StepKeepsCalm(s, es[0]);
      assert forall k :: 0 <= k < |es[1..]| ==> es[1..][k] == es[k + 1];
      RunKeepsCalm(Next(s, es[0]), es[1..]);
    }
  }

  /**
   In a run without a yield no request parks or backs off, none is preempted, and one is turned
   away only because an Acquire of its own failed.
   */
  lemma UndisturbedIsServed(lim: Limits, cfg: ParkConfig, bounded: bool, kinds: seq<Option<Class>>, es: seq<Event>, c: nat)
    requires 1 <= lim.maxInflight && 1 <= lim.maxWaiters
    requires CanRun(Init(lim, cfg, bounded, kinds), es) && NeverYields(es) && c < |kinds|
    ensures var r := Run(Init(lim, cfg, bounded, kinds), es).reqs[c];
            && r.pc != Parking && r.pc != Backoff && r.pc != BackedOff
            && forall k :: 0 <= k < |r.outcomes| ==>
                 || (r.outcomes[k] == Deferred && r.refused)
                 || r.outcomes[k] == Served || r.outcomes[k] == UpstreamTimeout
  {
    var s0 := Init(lim, cfg, bounded, kinds);
    InitInv(lim, cfg, bounded, kinds);
    InitCalm(lim, cfg, bounded, kinds);
    RunKeepsCalm(s0, es);
    CalmRequest(Run(s0, es), c);
  }

  lemma InitCalm(lim: Limits, cfg: ParkConfig, bounded: bool, kinds: seq<Option<Class>>)
    ensures AllCalm(Init(lim, cfg, bounded, kinds))
  {
  }

  lemma CalmRequest(s: Sys, c: nat)
    requires AllCalm(s) && c < |s.reqs|
    ensures Calm(s.reqs[c], s.park.clients[c].phase, s.epoch)
  {
  }

  // ----- what an outcome reports -----

  /** A request may park: it is batch, and parking is on. */
  predicate MayPark(s: Sys, c: nat)
    requires c < |s.reqs|
  {
    s.reqs[c].cls == Batch && s.ParkEnabled()
  }

  /** What has just happened to a request that records `o`. */
  ghost predicate Reports(s: Sys, e: Event, c: nat, o: Outcome)
    requires c < |s.reqs| && c < |s.park.clients|
  {
    var pc, parked := s.reqs[c].pc, s.park.clients[c].phase;
    match o
    case Deferred => pc == Refused || (!MayPark(s, c) && (pc == BackedOff || (pc == Top && s.Yielding())))
    case ParkExpired => pc == Parking && parked.Returned? && parked.result == Expired
    case ParkRejected => pc == Parking && parked.Returned? && parked.result == Rejected
    case ClientGone => pc == Parking && parked.Returned? && parked.result == Canceled
    case CrashFailed => pc == Parking && parked.Returned? && parked.result == Shutdown
    case Preempted => pc.Answered? && s.Cancelled(pc.ctx)
    case UpstreamTimeout => pc.Answered? && !s.Cancelled(pc.ctx) && e == Record(c, true) && s.bounded
    case Served => pc.Answered? && !s.Cancelled(pc.ctx) && e == Record(c, false)
  }

  /** One outcome more, and it reports what has happened. */
  ghost predicate RecordsRightly(s: Sys, e: Event, c: nat, r': Req)
    requires c < |s.reqs| && c < |s.park.clients|
  {
    exists o :: r'.outcomes == s.reqs[c].outcomes + [o] && Reports(s, e, c, o)
  }

  lemma MoveRecordsRightly(s: Sys, e: Event)
    requires Sized(s) && Enabled(s, e) && (LocalStep(e) || e.Unpark?) && Move(s, e).outcomes != s.reqs[e.c].outcomes
    ensures RecordsRightly(s, e, e.c, Move(s, e))
  {
    var r, r' := s.reqs[e.c], Move(s, e);
    var o := r'.outcomes[|r.outcomes|];
    assert r'.outcomes == r.outcomes + [o] && Reports(s, e, e.c, o);
  }

  /** Whenever a request records an outcome, it is the one that reports what has happened to it. */
  lemma OutcomeSaysWhy(s: Sys, e: Event, c: nat)
    requires Linked(s) && Enabled(s, e) && c < |s.reqs| && Next(s, e).reqs[c].outcomes != s.reqs[c].outcomes
    ensures RecordsRightly(s, e, c, Next(s, e).reqs[c])
  {
    if LocalStep(e) {
      LocalStepIsLocal(s, e);
      MoveRecordsRightly(s, e);
    } else if e.Unpark? {
      UnparkIsLocal(s, e.c);
      MoveRecordsRightly(s, e);
    }
  }

  /** A batch request that may park is never turned away by a yield: it parks, or tries again. */
  lemma YieldOnlyParks(s: Sys, e: Event, c: nat)
    requires Enabled(s, e) && (e == ProbeTop(c) || e == LoopBack(c)) && MayPark(s, c)
    ensures Next(s, e).reqs[c].outcomes == s.reqs[c].outcomes
    ensures Next(s, e).reqs[c].pc == if e == LoopBack(c) then Top else if s.Yielding() then Parking else Asking
  {
  }

  function AtUpstream(s: Sys): (r: set<nat>) {
    set c | 0 <= c < |s.reqs| && s.reqs[c].pc.Upstream?
  }

  /** No more than `maxInflight` requests are ever at the upstream together. */
  lemma UpstreamNeverOversubscribed(lim: Limits, cfg: ParkConfig, bounded: bool, kinds: seq<Option<Class>>, es: seq<Event>)
    requires 1 <= lim.maxInflight && 1 <= lim.maxWaiters
    requires CanRun(Init(lim, cfg, bounded, kinds), es)
    ensures |AtUpstream(Run(Init(lim, cfg, bounded, kinds), es))| <= lim.maxInflight
  {
    var s := Run(Init(lim, cfg, bounded, kinds), es);
    InitInv(lim, cfg, bounded, kinds);
    RunKeepsInv(Init(lim, cfg, bounded, kinds), es);
    RunKeepsLimits(Init(lim, cfg, bounded, kinds), es);
    forall c | c in AtUpstream(s)
      ensures c in s.slots.Owners()
    {
      assert ConsistentAt(s, c);
    }
    SubsetIsNoLarger(AtUpstream(s), s.slots.Owners());
  }

  lemma {:induction false} SubsetIsNoLarger<T>(a: set<T>, b: set<T>)
    requires a <= b
    ensures |a| <= |b|
  {
    if a != {} {
      var x :| x in a;
      SubsetIsNoLarger(a - {x}, b - {x});
    }
  }

  lemma {:induction false} RunKeepsLimits(s: Sys, es: seq<Event>)
    requires CanRun(s, es)
    ensures Run(s, es).slots.lim == s.slots.lim
    decreases |es|
  {
    if es != [] {
      RunKeepsLimits(Next(s, es[0]), es[1..]);
    }
  }

  /** Once every request is over and every other client is out, nothing is held, queued or parked. */
  lemma NothingLeftBehind(s: Sys)
    requires Inv(s)
    requires forall c :: 0 <= c < |s.reqs| ==> s.reqs[c].pc == Done || (s.reqs[c].pc == Other && s.slots.phases[c].Idle?)
    ensures s.slots.core == Sched(0, [], []) && s.park.q == []
  {
    assert s.park.q != [] ==> Parks.Waited(s.park, s.park.q[0]);
    forall c | 0 <= c < |s.reqs|
      ensures s.slots.phases[c].Idle? && s.park.clients[c].phase.Out?
    {
      assert ConsistentAt(s, c);
    }
    assert s.slots.Owners() == {};
  }

  /** What a request whose serve context is cancelled may still record. */
  ghost predicate Doomed(s: Sys, c: nat) {
    && c < |s.reqs|
    && var r := s.reqs[c];
       match r.pc
       case Upstream(ctx) => ctx <= s.epoch && s.Cancelled(ctx) && r.outcomes == []
       case Answered(ctx) => ctx <= s.epoch && s.Cancelled(ctx) && r.outcomes == []
       case Unwinding => r.outcomes == [] || r.outcomes == [Preempted]
       case Done => r.outcomes == [] || r.outcomes == [Preempted]
       case _ => false
  }

  lemma NextKeepsDoom(s: Sys, e: Event, c: nat)
    requires Enabled(s, e) && Doomed(s, c)
    ensures Doomed(Next(s, e), c)
  {
    if e.SlotStep? {
      SlotStepKeepsDoom(s, e.se, c);
    } else if LocalStep(e) {
      LocalStepKeepsDoom(s, e, c);
    }
  }

  lemma LocalStepKeepsDoom(s: Sys, e: Event, c: nat)
    requires Enabled(s, e) && LocalStep(e) && Doomed(s, c)
    ensures Doomed(Next(s, e), c)
  {
    if e.c != c {
      LocalStepIsLocal(s, e);
    }
  }

  lemma SlotStepKeepsDoom(s: Sys, se: Slots.Event, c: nat)
    requires Enabled(s, SlotStep(se)) && Doomed(s, c)
    ensures Doomed(Next(s, SlotStep(se)), c)
  {
  }

  lemma {:induction false} DoomedForGood(s: Sys, es: seq<Event>, c: nat)
    requires CanRun(s, es) && Doomed(s, c)
    ensures Doomed(Run(s, es), c)
    decreases |es|
  {
    if es != [] {
      NextKeepsDoom(s, es[0], c);
      DoomedForGood(Next(s, es[0]), es[1..], c);
    }
  }

  /**
   A request that is at the upstream at any moment of a yield records Preempted if it records
   anything, however late it answers and even when the yield has long cleared.
   */
  lemma YieldPreempts(s: Sys, es: seq<Event>, c: nat)
    requires Inv(s) && CanRun(s, es) && c < |s.reqs|
    requires s.Yielding() && s.reqs[c].pc.Upstream?
    ensures Run(s, es).reqs[c].outcomes == [] || Run(s, es).reqs[c].outcomes == [Preempted]
  {
    assert ConsistentAt(s, c);
    DoomedForGood(s, es, c);
  }

  /** The same holds for one that passed admission before the yield and dispatches during it. */
  lemma LateDispatchIsPreempted(s: Sys, es: seq<Event>, c: nat)
    requires Inv(s) && s.Yielding() && IsPc(s, c, Admitted) && CanRun(Next(s, Dispatch(c)), es)
    ensures Run(Next(s, Dispatch(c)), es).reqs[c].outcomes == []
            || Run(Next(s, Dispatch(c)), es).reqs[c].outcomes == [Preempted]
  {
    NextKeepsInv(s, Dispatch(c));
    YieldPreempts(Next(s, Dispatch(c)), es, c);
  }

  /** The deferred Release runs after a panic, and is all that is left to run. */
  lemma PanicFrees(s: Sys, c: nat)
    requires Inv(s) && c < |s.reqs| && s.reqs[c].pc.Upstream?
    ensures var s1 := Next(s, PanicUpstream(c));
            && Enabled(s1, SlotStep(Slots.Free(c)))
            && var r := Next(s1, SlotStep(Slots.Free(c))).reqs[c];
               r.pc == Done && r.freed == r.got && r.outcomes == []
  {
    assert ConsistentAt(s, c);
    assert Next(s, PanicUpstream(c)).reqs[c] == s.reqs[c].(pc := Unwinding, panicked := true);
  }

  lemma {:induction false} RunOneMore(s: Sys, es: seq<Event>, e: Event)
    requires CanRun(s, es) && Enabled(Run(s, es), e)
    ensures CanRun(s, es + [e]) && Run(s, es + [e]) == Next(Run(s, es), e)
    decreases |es|
  {
    if es == [] {
      assert [] + [e] == [e] && [e][1..] == [];
    } else {
      assert (es + [e])[0] == es[0] && (es + [e])[1..] == es[1..] + [e];
      RunOneMore(Next(s, es[0]), es[1..], e);
    }
  }

  /** A panic in the upstream handler still frees the slot, but no outcome is ever recorded for it. */
  lemma PanicIsNotRecorded(s: Sys, c: nat)
    requires Inv(s) && c < |s.reqs| && s.reqs[c].pc.Upstream?
    ensures CanRun(s, [PanicUpstream(c), SlotStep(Slots.Free(c))])
    ensures var r := Run(s, [PanicUpstream(c), SlotStep(Slots.Free(c))]).reqs[c];
            r.pc == Done && r.freed == r.got && r.outcomes == []
  {
    assert ConsistentAt(s, c);
    PanicFrees(s, c);
    RunOneMore(s, [], PanicUpstream(c));
    assert [] + [PanicUpstream(c)] == [PanicUpstream(c)];
    RunOneMore(s, [PanicUpstream(c)], SlotStep(Slots.Free(c)));
    assert [PanicUpstream(c)] + [SlotStep(Slots.Free(c))] == [PanicUpstream(c), SlotStep(Slots.Free(c))];
  }

  // ----- the hold bound is per park -----

  ghost predicate Reaches(s: Sys, s': Sys) {
    exists es :: CanRun(s, es) && Run(s, es) == s'
  }

  lemma ReachesItself(s: Sys)
    ensures Reaches(s, s)
  {
    assert CanRun(s, []) && Run(s, []) == s;
  }

  lemma ReachesNext(s: Sys, m: Sys, e: Event)
    requires Reaches(s, m) && Enabled(m, e)
    ensures Reaches(s, Next(m, e))
  {
    var es :| CanRun(s, es) && Run(s, es) == m;
    RunOneMore(s, es, e);
  }

  lemma ReachesLocal(from: Sys, m: Sys, e: Event, r: Req)
    requires Reaches(from, m) && Enabled(m, e) && LocalStep(e) && r == Move(m, e)
    ensures e.c < |m.reqs| && Reaches(from, m.(reqs := m.reqs[e.c := r]))
  {
    LocalStepIsLocal(m, e);
    ReachesNext(from, m, e);
  }

  lemma ReachesPark(from: Sys, m: Sys, pe: Parks.Event, park: Parks.Sys)
    requires Reaches(from, m) && ParkStepAllowed(m, pe) && Parks.Enabled(m.park, pe) && park == Parks.Next(m.park, pe)
    ensures Reaches(from, m.(park := park))
  {
    ReachesNext(from, m, ParkStep(pe));
  }

  lemma ReachesYielding(from: Sys, m: Sys, on: bool)
    requires Reaches(from, m)
    ensures Reaches(from, m.(park := m.park.(yielding := on), epoch := if m.Yielding() && !on then m.epoch + 1 else m.epoch))
  {
    ReachesNext(from, m, SetYielding(on));
  }

  /** Batch request `c` is the one entry of the park queue, its hold timer running. */
  ghost predicate Held(s: Sys, c: nat) {
    IsPc(s, c, Parking) && s.reqs[c].cls == Batch && HeldIn(s.park, c)
  }

  ghost predicate HeldIn(p: Parks.Sys, c: nat) {
    && c < |p.clients| && p.cfg.maxQueue >= 1 && p.cfg.drainBurst >= 1 && |p.makers| > 0
    && p.clients[c].phase == Parks.Parked(|p.makers| - 1) && !p.clients[c].held
    && p.q == [|p.makers| - 1] && p.drain.Ticking? && p.yielding
  }

  ghost predicate ReleasedIn(p: Parks.Sys, c: nat) {
    && c < |p.clients| && p.cfg.maxQueue >= 1 && p.cfg.drainBurst >= 1 && |p.makers| > 0
    && p.clients[c].phase == Parks.Parked(|p.makers| - 1) && |p.makers| - 1 in p.closed
    && p.q == [] && p.drain.Ticking? && p.yielding
  }

  lemma ReachesReady(from: Sys, s: Sys)
    requires Reaches(from, s) && s.park.drain.Ticking? && !s.Yielding() && s.park.q != []
    ensures Reaches(from, s.(park := s.park.(drain := Parks.Ready(s.park.cfg.drainBurst))))
  {
    var p := s.park.(drain := Parks.Probed);
    ReachesPark(from, s, Parks.Probe, p);
    ReachesPark(from, s.(park := p), Parks.Look, p.(drain := Parks.Ready(p.cfg.drainBurst)));
  }

  lemma ReachesReleased(from: Sys, s: Sys, e: nat)
    requires Reaches(from, s) && s.park.drain.Ready? && s.park.drain.burst >= 1 && s.park.q == [e]
    ensures Reaches(from, s.(park := s.park.(q := [], log := s.park.log + [e], closed := s.park.closed + [e],
                                             drain := Parks.Ticking)))
  {
    var p := s.park.(q := [], log := s.park.log + [e], drain := Parks.Closing([e]));
    assert s.park.q[..1] == [e] && s.park.q[1..] == [];
    ReachesPark(from, s, Parks.Splice, p);
    ReachesPark(from, s.(park := p), Parks.CloseOne, p.(closed := p.closed + [e], drain := Parks.Ticking));
  }

  /** A whole tick over a queue of one. */
  function Ticked(p: Parks.Sys, e: nat): (p': Parks.Sys)
    ensures e in p'.closed
  {
    assert (p.closed + [e])[|p.closed|] == e;
    p.(q := [], log := p.log + [e], closed := p.closed + [e], drain := Parks.Ticking)
  }

  lemma ReachesTicked(from: Sys, s: Sys, e: nat)
    requires Reaches(from, s) && s.park.drain.Ticking? && !s.Yielding() && s.park.q == [e] && s.park.cfg.drainBurst >= 1
    ensures Reaches(from, s.(park := Ticked(s.park, e)))
  {
    ReachesReady(from, s);
    ReachesReleased(from, s.(park := s.park.(drain := Parks.Ready(s.park.cfg.drainBurst))), e);
  }

  /** The yield lifts for one tick, which releases the request, and is back before the request wakes. */
  lemma FlickerReleases(from: Sys, s: Sys, c: nat) returns (s': Sys)
    requires Reaches(from, s) && Held(s, c)
    ensures Reaches(from, s') && s'.slots == s.slots && s'.reqs == s.reqs
    ensures ReleasedIn(s'.park, c) && s'.park.makers == s.park.makers
  {
    var p := s.park;
    var s1 := s.(park := p.(yielding := false), epoch := s.epoch + 1);
    ReachesYielding(from, s, false);
    ReachesTicked(from, s1, p.q[0]);
    s' := s1.(park := Ticked(p, p.q[0]));
    ReachesYielding(from, s1.(park := Ticked(p.(yielding := false), p.q[0])), true);
  }

  /** Woken while the broker yields again, the request is back at the door, outside the park queue. */
  lemma ReleasedLeaves(from: Sys, s: Sys, c: nat) returns (s': Sys)
    requires Reaches(from, s) && IsPc(s, c, Parking) && s.reqs[c].cls == Batch && ReleasedIn(s.park, c)
    ensures Reaches(from, s') && s'.slots == s.slots && s'.reqs == s.reqs
    ensures s'.park == s.park.(clients := s'.park.clients) && |s'.park.clients| == |s.park.clients|
    ensures s'.park.clients[c].phase.Out?
  {
    var released := Parks.Returned(Released, Some(|s.park.makers| - 1));
    var p1 := s.park.(clients := s.park.clients[c := s.park.clients[c].(phase := released)]);
    ReachesPark(from, s, Parks.SelectRelease(c), p1);
    var s1 := s.(park := p1);
    ReachesNext(from, s1, Unpark(c));
    var p2 := p1.(clients := p1.clients[c := p1.clients[c].(phase := Parks.Out)]);
    var s2 := s1.(park := p2, reqs := s.reqs[c := s.reqs[c].(pc := Top)]);
    assert Next(s1, Unpark(c)) == s2;
    ReachesLocal(from, s2, ProbeTop(c), s.reqs[c]);
    s' := s2.(reqs := s.reqs);
    assert s2.reqs[c := s.reqs[c]] == s.reqs;
  }

  /** One round: released by a flicker, and parked again with a new hold. */
  lemma ParksAgain(from: Sys, s: Sys, c: nat) returns (s': Sys)
    requires Reaches(from, s) && Held(s, c)
    ensures Reaches(from, s') && Held(s', c) && s'.reqs == s.reqs && s'.park.makers == s.park.makers + [c]
  {
    var r := FlickerReleases(from, s, c);
    var out := ReleasedLeaves(from, r, c);
    var p := out.park.(q := [|out.park.makers|], makers := out.park.makers + [c],
                       clients := out.park.clients[c := Parks.Client(Parks.Parked(|out.park.makers|), false, out.park.clients[c].gone)]);
    ReachesPark(from, out, Parks.Enter(c), p);
    s' := out.(park := p);
  }

  function Times(c: nat, n: nat): (r: seq<nat>) {
    if n == 0 then [] else Times(c, n - 1) + [c]
  }

  lemma OneTimeMore(makers: seq<nat>, c: nat, n: nat)
    requires n > 0
    ensures makers + Times(c, n - 1) + [c] == makers + Times(c, n)
  {
  }

  lemma {:induction false} ParksTimes(s: Sys, c: nat, n: nat) returns (s': Sys)
    requires Held(s, c)
    ensures Reaches(s, s') && Held(s', c) && s'.reqs == s.reqs && s'.park.makers == s.park.makers + Times(c, n)
  {
    if n == 0 {
      ReachesItself(s);
      s' := s;
      assert s.park.makers + [] == s.park.makers;
    } else {
      var m := ParksTimes(s, c, n - 1);
      s' := ParksAgain(s, m, c);
      OneTimeMore(s.park.makers, c, n);
    }
  }

  /**
   The hold bounds one park, not one request: whatever `n`, a parked request may park `n` more
   times, each with a new entry and a new hold, without ever being answered.
   */
  lemma HoldIsPerPark(s: Sys, c: nat, n: nat)
    requires Held(s, c)
    ensures exists s' :: Reaches(s, s') && Held(s', c) && s'.reqs == s.reqs && s'.park.makers == s.park.makers + Times(c, n)
  {
    var s' := ParksTimes(s, c, n);
  }

  /** With parking configured, a lone batch request that meets a yield is held. */
  lemma HeldIsReachable(lim: Limits, cfg: ParkConfig, bounded: bool)
    requires cfg.maxQueue >= 1 && cfg.drainBurst >= 1
    ensures exists s :: Reaches(Init(lim, cfg, bounded, [Some(Batch)]), s) && Held(s, 0)
  {
    var s0 := Init(lim, cfg, bounded, [Some(Batch)]);
    ReachesItself(s0);
    ReachesYielding(s0, s0, true);
    var s1 := s0.(park := s0.park.(yielding := true));
    ReachesNext(s0, s1, ProbeTop(0));
    var s2 := s1.(reqs := [Req(Parking, Batch, 0, 0, 0, [], false, false, false)]);
    assert Next(s1, ProbeTop(0)) == s2;
    var p := s2.park.(q := [0], makers := [0], clients := [Parks.Client(Parks.Parked(0), false, false)]);
    ReachesPark(s0, s2, Parks.Enter(0), p);
    assert Held(s2.(park := p), 0);
  }

  // ----- a request that nothing stands in the way of -----

  /** Up to the upstream: the slot is taken, the probe sees no yield, and the current context is captured. */
  lemma FreeSlotDispatches(s: Sys, c: nat) returns (s': Sys)
    requires Linked(s) && IsPc(s, c, Top) && !s.Yielding() && s.slots.core.inflight < s.slots.lim.maxInflight
    ensures Reaches(s, s') && Sized(s') && |s'.reqs| == |s.reqs| && s'.slots.phases[c].Holding? && s'.park == s.park && s'.epoch == s.epoch
    ensures s'.reqs[c].pc == Upstream(s.epoch) && s'.reqs[c].outcomes == []
  {
    assert ConsistentAt(s, c);
    ReachesItself(s);
    ReachesNext(s, s, ProbeTop(c));
    var s1 := Next(s, ProbeTop(c));
    assert s1 == s.(reqs := s.reqs[c := s.reqs[c].At(Asking)]);
    var take := SlotStep(Slots.Acquire(c, s.reqs[c].cls));
    ReachesNext(s, s1, take);
    var s2 := Next(s1, take);
    assert s2.reqs[c].pc == GotSlot && s2.slots.phases[c].Holding? && s2.park == s.park;
    ReachesNext(s, s2, ProbeHeld(c));
    var s3 := Next(s2, ProbeHeld(c));
    assert s3.reqs[c].pc == Admitted && s3.slots == s2.slots && s3.park == s.park;
    ReachesNext(s, s3, Dispatch(c));
    s' := Next(s3, Dispatch(c));
  }

  lemma DeferredRelease(from: Sys, s: Sys, c: nat) returns (s': Sys)
    requires Reaches(from, s) && IsPc(s, c, Unwinding) && c < |s.slots.phases| && s.slots.phases[c].Holding?
    ensures Reaches(from, s') && |s'.reqs| == |s.reqs| && s'.reqs[c].pc == Done && s'.reqs[c].outcomes == s.reqs[c].outcomes
  {
    ReachesNext(from, s, SlotStep(Slots.Free(c)));
    s' := Next(s, SlotStep(Slots.Free(c)));
  }

  /** And from there to the end, the upstream having answered in time. */
  lemma AnswerIsServed(from: Sys, s: Sys, c: nat, ctx: nat) returns (s': Sys)
    requires Reaches(from, s) && Sized(s) && IsPc(s, c, Upstream(ctx)) && !s.Cancelled(ctx)
    requires s.slots.phases[c].Holding? && s.reqs[c].outcomes == []
    ensures Reaches(from, s') && |s'.reqs| == |s.reqs| && s'.reqs[c].pc == Done && s'.reqs[c].outcomes == [Served]
  {
    var r := s.reqs[c];
    ReachesLocal(from, s, Answer(c), r.At(Answered(ctx)));
    var s1 := s.(reqs := s.reqs[c := r.At(Answered(ctx))]);
    var r2 := s1.reqs[c].Records(Unwinding, Served);
    ReachesLocal(from, s1, Record(c, false), r2);
    var s2 := s1.(reqs := s1.reqs[c := r2]);
    assert s2.reqs[c] == r2;
    s' := DeferredRelease(from, s2, c);
  }

  /** Any request that comes while nobody yields and a slot is free can be served at once, whatever else is going on. */
  lemma FreeSlotServes(s: Sys, c: nat)
    requires Inv(s) && IsPc(s, c, Top) && !s.Yielding() && s.slots.core.inflight < s.slots.lim.maxInflight
    ensures exists s' :: Reaches(s, s') && IsPc(s', c, Done) && s'.reqs[c].outcomes == [Served]
  {
    var up := FreeSlotDispatches(s, c);
    var s' := AnswerIsServed(s, up, c, s.epoch);
  }
}
