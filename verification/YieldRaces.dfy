/**
 The controller under every interleaving. A step is
 - one mutex-held region: refresh up to checkIdleLocked, SetMode, ServeContext, the locked part
   of a wake. applyLocked is one step: outside the mutex only a handler writes what it stores,
   by its wake CAS and its lastDispatch stores, and its regions are not split further;
 - one atomic access of checkIdleLocked, which keeps the mutex but not the requests out;
 - one atomic access of a TrackActivity handler;
 - an action goroutine starting its Unload or Reload, or finishing it (well, badly or by panic).
 */
module YieldRaces {
  import opened Wrappers
  import opened DebounceHistory
  import opened YieldSpec

  datatype ReqPhase =
    | Fresh
    | Counted   // inFlight incremented
    | Stamped   // lastDispatch stored
    | Won       // won the wake CAS, waiting for the mutex
    | Serving   // in next.ServeHTTP
    | Leaving   // inFlight decremented
    | Gone

  datatype Req = Req(inst: nat, phase: ReqPhase) {
    predicate Live() {
      phase.Counted? || phase.Stamped? || phase.Won? || phase.Serving?
    }

    predicate PastCas() {
      phase.Won? || phase.Serving?
    }
  }

  datatype Stage = LoadFlight | LoadFlag | LoadLast | Fire

  /** The poller holds the mutex while it is at an instance; `late` are the requests that came since it read inFlight. */
  datatype Poller = Off | At(i: nat, stage: Stage, late: set<nat>)

  /** Bookkeeping about one instance that the program itself does not keep. */
  datatype Tally = Tally(
    fires: nat,          // idle unloads queued
    wakes: nat,          // wake CASes won
    clears: nat,         // yield-clears that found idleUnloaded set
    caught: set<nat>,    // requests in flight when the last idle unload was queued
    crossed: bool,       // whether one of them had won a wake it had not queued yet
    wokeInYield: bool,   // a wake was queued since the current yield began
    started: seq<Kind>)  // the calls made so far

  /** `history` are the observations of the detector so far, oldest first. */
  datatype Sys = Sys(
    ctl: Ctl, polls: nat, now: int, poller: Poller, reqs: seq<Req>, tally: seq<Tally>, captured: set<nat>,
    history: seq<Observation>)

  datatype Event =
    | Tick(d: nat)
    | Refresh(o: Observation)
    | PollStep
    | ChangeMode(m: Mode)
    | ReqStep(r: nat)
    | Capture
    | Start(i: nat, k: nat)
    | Finish(i: nat, k: nat)

  predicate Closed(c: Ctl, ch: Chan) {
    ch.inst < |c.insts| && ch.n < |c.insts[ch.inst].actions| && c.insts[ch.inst].actions[ch.n].status == Finished
  }

  predicate HasAction(s: Sys, i: nat, k: nat) {
    i < |s.ctl.insts| && k < |s.ctl.insts[i].actions|
  }

  predicate Startable(c: Ctl, a: Action) {
    a.status == Blocked && (a.wait == None || Closed(c, a.wait.value))
  }

  predicate Shape(s: Sys) {
    && |s.tally| == |s.ctl.insts|
    && (s.poller.At? ==> s.poller.i < |s.ctl.insts|)
    && (forall r :: 0 <= r < |s.reqs| ==> s.reqs[r].inst < |s.ctl.insts|)
  }

  predicate Enabled(s: Sys, e: Event)
    requires Shape(s)
  {
    match e
    case Tick(_) => true
    case Refresh(_) => s.poller.Off?
    case PollStep => s.poller.At?
    case ChangeMode(_) => s.poller.Off?
    case ReqStep(r) => r < |s.reqs| && !s.reqs[r].phase.Gone? && (s.reqs[r].phase.Won? ==> s.poller.Off?)
    case Capture => s.poller.Off?
    case Start(i, k) => HasAction(s, i, k) && Startable(s.ctl, s.ctl.insts[i].actions[k])
    case Finish(i, k) => HasAction(s, i, k) && s.ctl.insts[i].actions[k].status == Running
  }

  /** The tallies when the controller goes from `c` to `c'` in applyLocked. */
  function TallyApply(t: seq<Tally>, c: Ctl, c': Ctl): (t': seq<Tally>)
    requires |t| == |c.insts|
    ensures |t'| == |t|
    ensures forall i :: 0 <= i < |t| ==> t'[i] == TallyOne(t[i], c, c', i)
  {
    seq(|t|, i requires 0 <= i < |t| => TallyOne(t[i], c, c', i))
  }

  function TallyOne(t: Tally, c: Ctl, c': Ctl, i: nat): (t': Tally)
    requires i < |c.insts|
  {
    if c.effective == c'.effective then t
    else if c'.effective then t.(wokeInYield := false)
    else t.(clears := t.clears + if c.insts[i].idleUnloaded then 1 else 0)
  }

  function Advance(s: Sys): (p: Poller)
    requires s.poller.At?
  {
    if s.poller.i + 1 < |s.ctl.insts| then At(s.poller.i + 1, LoadFlight, {}) else Off
  }

  function SetInst(s: Sys, i: nat, x: Instance): (s': Sys)
    requires i < |s.ctl.insts|
  {
    s.(ctl := UpdateInst(s.ctl, i, x))
  }

  /** The requests of instance `i` between their increment and their decrement. */
  function LiveOn(reqs: seq<Req>, i: nat): (live: set<nat>) {
    set r | 0 <= r < |reqs| && reqs[r].inst == i && reqs[r].Live()
  }

  /** Some request of instance `i` has won a wake and not queued it yet. */
  predicate WakePending(reqs: seq<Req>, i: nat) {
    exists r :: 0 <= r < |reqs| && reqs[r] == Req(i, Won)
  }

  function PollNext(s: Sys): (s': Sys)
    requires Shape(s) && s.poller.At?
  {
    var At(i, stage, late) := s.poller;
    var x := s.ctl.insts[i];
    match stage
    case LoadFlight =>
      s.(poller := if x.idleTimeout == 0 || s.ctl.effective || x.inFlight > 0 then Advance(s) else At(i, LoadFlag, {}))
    case LoadFlag =>
      s.(poller := if x.idleUnloaded then Advance(s) else At(i, LoadLast, late))
    case LoadLast =>
      s.(poller := if s.now - x.lastDispatch >= x.idleTimeout then At(i, Fire, late) else Advance(s))
    case Fire =>
      if x.idleUnloaded then s.(poller := Advance(s))
      else SetInst(s, i, StartAction(x, i, Unload, ByIdle).(idleUnloaded := true))
           .(poller := Advance(s),
             tally := s.tally[i := s.tally[i].(fires := s.tally[i].fires + 1, caught := LiveOn(s.reqs, i), crossed := WakePending(s.reqs, i))])
  }

  /** What one atomic access of a handler makes of its instance, the tally of it, and the handler's own phase. */
  datatype Move = Move(x: Instance, t: Tally, phase: ReqPhase)

  function Track(x: Instance, t: Tally, i: nat, phase: ReqPhase, now: int, effective: bool): (m: Move)
    requires !phase.Gone?
  {
    match phase
    case Fresh => Move(x.(inFlight := x.inFlight + 1), t, Counted)
    case Counted => Move(x.(lastDispatch := now), t, Stamped)
    case Stamped =>
      if x.idleUnloaded then Move(x.(idleUnloaded := false), t.(wakes := t.wakes + 1), Won) else Move(x, t, Serving)
    case Won => Move(StartAction(x, i, Reload, ByIdle), t.(wokeInYield := t.wokeInYield || effective), Serving)
    case Serving => Move(x.(inFlight := x.inFlight - 1), t, Leaving)
    case Leaving => Move(x.(lastDispatch := now), t, Gone)
  }

  /** A request that counts itself after the poller has read inFlight is late. */
  function Noticed(p: Poller, i: nat, r: nat): (p': Poller) {
    if p.At? && p.i == i && p.stage != LoadFlight then p.(late := p.late + {r}) else p
  }

  function MoveOf(s: Sys, r: nat): (m: Move)
    requires Shape(s) && Enabled(s, ReqStep(r))
  {
    var Req(i, phase) := s.reqs[r];
    Track(s.ctl.insts[i], s.tally[i], i, phase, s.now, s.ctl.effective)
  }

  function ReqNext(s: Sys, r: nat): (s': Sys)
    requires Shape(s) && Enabled(s, ReqStep(r))
  {
    var Req(i, phase) := s.reqs[r];
    var m := MoveOf(s, r);
    SetInst(s, i, m.x)
    .(tally := s.tally[i := m.t], reqs := s.reqs[r := Req(i, m.phase)],
      poller := if phase.Fresh? then Noticed(s.poller, i, r) else s.poller)
  }

  function SetStatus(x: Instance, k: nat, status: Status): (x': Instance)
    requires k < |x.actions|
  {
    x.(actions := x.actions[k := x.actions[k].(status := status)])
  }

  function Next(s: Sys, e: Event): (s': Sys)
    requires Shape(s) && Enabled(s, e)
    ensures Shape(s') && |s'.ctl.insts| == |s.ctl.insts| && |s'.reqs| == |s.reqs|
  {
    match e
    case Tick(d) => s.(now := s.now + d)
    case Refresh(o) =>
      var ctl' := Poll(s.ctl, s.polls, o, s.now);
      s.(ctl := ctl', tally := TallyApply(s.tally, s.ctl, ctl'),
         poller := if |s.ctl.insts| > 0 then At(0, LoadFlight, {}) else Off, history := s.history + [o])
    case PollStep => PollNext(s)
    case ChangeMode(m) =>
      var ctl' := SetMode(s.ctl, m, s.now);
      s.(ctl := ctl', tally := TallyApply(s.tally, s.ctl, ctl'))
    case ReqStep(r) => ReqNext(s, r)
    case Capture => s.(captured := s.captured + {s.ctl.serve})
    case Start(i, k) =>
      SetInst(s, i, SetStatus(s.ctl.insts[i], k, Running))
      .(tally := s.tally[i := s.tally[i].(started := s.tally[i].started + [s.ctl.insts[i].actions[k].kind])])
    case Finish(i, k) => SetInst(s, i, SetStatus(s.ctl.insts[i], k, Finished))
  }

  predicate CanRun(s: Sys, es: seq<Event>)
    requires Shape(s)
    decreases |es|
  {
    es == [] || (Enabled(s, es[0]) && CanRun(Next(s, es[0]), es[1..]))
  }

  function Run(s: Sys, es: seq<Event>): (s': Sys)
    requires Shape(s) && CanRun(s, es)
    ensures Shape(s') && |s'.ctl.insts| == |s.ctl.insts| && |s'.reqs| == |s.reqs|
    decreases |es|
  {
    if es == [] then s else Run(Next(s, es[0]), es[1..])
  }

  /** A fresh controller with these idle timeouts, and one request per element of `targets`. */
  function Init(polls: int, timeouts: seq<int>, now: int, targets: seq<nat>): (s: Sys)
    requires forall r :: 0 <= r < |targets| ==> targets[r] < |timeouts|
    ensures Shape(s) && |s.ctl.insts| == |timeouts| && |s.reqs| == |targets|
  {
    Sys(Ctl(Auto, false, "", false, FRESH, 0, {},
            seq(|timeouts|, i requires 0 <= i < |timeouts| => Instance(timeouts[i], now, 0, false, None, []))),
        if polls < 1 then 1 else polls, now, Off,
        seq(|targets|, r requires 0 <= r < |targets| => Req(targets[r], Fresh)),
        seq(|timeouts|, _ => Tally(0, 0, 0, {}, false, false, [])), {}, [])
  }

  // ----- the invariant -----

  /** Contexts before the current one are cancelled; the current one is cancelled iff yielding. */
  ghost predicate ServeOk(s: Sys) {
    && s.ctl.effective == Compute(s.ctl).0
    && (forall x :: x in s.ctl.cancelled <==> 0 <= x < s.ctl.serve || (x == s.ctl.serve && s.ctl.effective))
    && (forall x :: x in s.captured ==> x <= s.ctl.serve)
  }

  /** The debouncer has counted the whole history, and the automatic verdict is its last report. */
  ghost predicate DebounceOk(s: Sys) {
    && s.polls >= 1 && s.ctl.debounce == After(s.history)
    && (s.ctl.autoContended, s.ctl.autoReason) == if s.history == [] then (false, "") else LastReport(s.history, s.polls)
  }

  /** Each action waits on its predecessor in the same chain, and the calls made are a prefix of the chain. */
  ghost predicate ChainOk(x: Instance, i: nat, started: seq<Kind>) {
    && (forall k :: 0 <= k < |x.actions| ==> x.actions[k].wait == if k == 0 then None else Some(Chan(i, k - 1)))
    && x.actionDone == (if x.actions == [] then None else Some(Chan(i, |x.actions| - 1)))
    && |started| <= |x.actions|
    && (forall k :: 0 <= k < |started| ==> x.actions[k].kind == started[k])
    && (forall k :: 0 <= k < |started| - 1 ==> x.actions[k].status == Finished)
    && (forall k :: 0 <= k < |x.actions| ==> (x.actions[k].status == Blocked <==> k >= |started|))
  }

  predicate LastIsUnload(x: Instance) {
    x.actions != [] && x.actions[|x.actions| - 1].kind == Unload
  }

  ghost predicate Conserved(x: Instance, t: Tally) {
    t.fires == t.wakes + t.clears + (if x.idleUnloaded then 1 else 0)
  }

  /** A request past its wake CAS means the flag is down, unless the last idle unload caught it. */
  ghost predicate FlagOk(x: Instance, t: Tally, reqs: seq<Req>, i: nat) {
    forall r :: 0 <= r < |reqs| && reqs[r].inst == i && reqs[r].PastCas() && r !in t.caught ==> !x.idleUnloaded
  }

  /**
   How the chain and the flag hang together. While serving, an instance last told to unload has
   its flag up or a wake on the way; a flag put up by an idle unload that crossed a wake has that
   wake behind it; any other flag that is up has its unload as the last action.
   */
  ghost predicate Agrees(x: Instance, t: Tally, effective: bool, reqs: seq<Req>, i: nat) {
    if effective then LastIsUnload(x) <==> !t.wokeInYield
    else
      && (LastIsUnload(x) && !x.idleUnloaded ==> WakePending(reqs, i))
      && (x.idleUnloaded && t.crossed ==> WakePending(reqs, i) || !LastIsUnload(x))
      && (x.idleUnloaded && !t.crossed ==> LastIsUnload(x) && !WakePending(reqs, i))
  }

  ghost predicate WindowOk(s: Sys)
    requires Shape(s)
  {
    s.poller.At? && s.poller.stage != LoadFlight ==>
      && !s.ctl.effective
      && (forall r :: r in LiveOn(s.reqs, s.poller.i) ==> r in s.poller.late)
      && (forall r :: r in s.poller.late ==> r < |s.reqs| && s.reqs[r].inst == s.poller.i)
  }

  ghost predicate InstOk(s: Sys, i: nat)
    requires Shape(s) && i < |s.ctl.insts|
  {
    var x, t := s.ctl.insts[i], s.tally[i];
    && ChainOk(x, i, t.started)
    && x.inFlight == |LiveOn(s.reqs, i)|
    && Conserved(x, t)
    && FlagOk(x, t, s.reqs, i)
    && Agrees(x, t, s.ctl.effective, s.reqs, i)
  }

  ghost predicate Inv(s: Sys) {
    && Shape(s) && ServeOk(s) && WindowOk(s) && DebounceOk(s)
    && forall i :: 0 <= i < |s.ctl.insts| ==> InstOk(s, i)
  }

  lemma InitInv(polls: int, timeouts: seq<int>, now: int, targets: seq<nat>)
    requires forall r :: 0 <= r < |targets| ==> targets[r] < |timeouts|
    ensures Inv(Init(polls, timeouts, now, targets))
  {
    var s := Init(polls, timeouts, now, targets);
    forall i | 0 <= i < |timeouts|
      ensures InstOk(s, i)
    {
      assert LiveOn(s.reqs, i) == {};
    }
  }

  lemma StartActionKeepsChain(x: Instance, i: nat, started: seq<Kind>, kind: Kind, trigger: Trigger)
    requires ChainOk(x, i, started)
    ensures ChainOk(StartAction(x, i, kind, trigger), i, started)
    ensures LastIsUnload(StartAction(x, i, kind, trigger)) <==> kind == Unload
  {
  }

  lemma OnlyLiveMatters(reqs: seq<Req>, r: nat, p: ReqPhase, i: nat)
    requires r < |reqs|
    ensures var reqs' := reqs[r := Req(reqs[r].inst, p)];
            LiveOn(reqs', i) == if reqs[r].inst != i then LiveOn(reqs, i)
                                else if Req(i, p).Live() then LiveOn(reqs, i) + {r} else LiveOn(reqs, i) - {r}
  {
  }

  /** applyLocked on one instance. */
  lemma ApplyKeepsInst(s: Sys, c: Ctl, i: nat)
    requires Shape(s) && i < |s.ctl.insts| && InstOk(s, i)
    requires c.insts == s.ctl.insts && c.effective == s.ctl.effective
    ensures var ctl' := Apply(c, s.now);
            var s' := s.(ctl := ctl', tally := TallyApply(s.tally, s.ctl, ctl'), poller := Off);
            InstOk(s', i)
  {
    StartActionKeepsChain(c.insts[i], i, s.tally[i].started, Unload, ByYield);
    StartActionKeepsChain(c.insts[i], i, s.tally[i].started, Reload, ByYield);
  }

  lemma RegionKeepsInv(s: Sys, e: Event)
    requires Inv(s) && Enabled(s, e) && (e.Refresh? || e.ChangeMode?)
    ensures Inv(Next(s, e))
  {
    var s' := Next(s, e);
    forall i | 0 <= i < |s.ctl.insts|
      ensures InstOk(s', i)
    {
      match e {
        case Refresh(o) =>
          var (contended, reason) := Report(s.ctl.debounce, s.polls, o);
          ApplyKeepsInst(s, s.ctl.(debounce := Count(s.ctl.debounce, o), autoContended := contended, autoReason := reason), i);
        case ChangeMode(m) =>
          ApplyKeepsInst(s, s.ctl.(mode := m), i);
      }
    }
  }

  /** An idle unload starts the tally of its catch afresh. */
  lemma FireKeepsInst(s: Sys)
    requires Shape(s) && WindowOk(s) && s.poller.At? && s.poller.stage == Fire && InstOk(s, s.poller.i)
    ensures InstOk(PollNext(s), s.poller.i)
  {
    var i := s.poller.i;
    StartActionKeepsChain(s.ctl.insts[i], i, s.tally[i].started, Unload, ByIdle);
    assert forall r :: 0 <= r < |s.reqs| && s.reqs[r].inst == i && s.reqs[r].PastCas() ==> r in LiveOn(s.reqs, i);
  }

  lemma PollStepKeepsInv(s: Sys)
    requires Inv(s) && s.poller.At?
    ensures Inv(Next(s, PollStep))
  {
    var s' := Next(s, PollStep);
    forall i | 0 <= i < |s.ctl.insts|
      ensures InstOk(s', i)
    {
      assert InstOk(s, i);
      if s.poller.stage == Fire && i == s.poller.i {
        FireKeepsInst(s);
      }
    }
    if s.poller.stage == LoadFlight && s'.poller.At? && s'.poller.stage == LoadFlag {
      assert InstOk(s, s.poller.i);
      assert LiveOn(s.reqs, s.poller.i) == {};
    }
  }

  lemma OtherReqKeepsViews(reqs: seq<Req>, r: nat, p: ReqPhase, x: Instance, i: nat)
    requires r < |reqs| && reqs[r].inst != i
    ensures var reqs' := reqs[r := Req(reqs[r].inst, p)];
            && LiveOn(reqs', i) == LiveOn(reqs, i)
            && (forall t :: FlagOk(x, t, reqs, i) ==> FlagOk(x, t, reqs', i))
            && (WakePending(reqs, i) <==> WakePending(reqs', i))
  {
    var reqs' := reqs[r := Req(reqs[r].inst, p)];
    assert forall w :: 0 <= w < |reqs| ==> (reqs[w] == Req(i, Won) <==> reqs'[w] == Req(i, Won));
  }

  /** A request step on another instance changes nothing about instance `i`. */
  lemma OtherReqKeepsInst(s: Sys, r: nat, i: nat)
    requires Shape(s) && Enabled(s, ReqStep(r)) && i < |s.ctl.insts| && i != s.reqs[r].inst && InstOk(s, i)
    ensures InstOk(ReqNext(s, r), i)
  {
    OtherReqKeepsViews(s.reqs, r, MoveOf(s, r).phase, s.ctl.insts[i], i);
  }

  lemma SameChain(x: Instance, y: Instance, i: nat, started: seq<Kind>)
    requires ChainOk(x, i, started) && y.actions == x.actions && y.actionDone == x.actionDone
    ensures ChainOk(y, i, started)
  {
  }

  lemma TrackKeepsChain(x: Instance, t: Tally, i: nat, phase: ReqPhase, now: int, effective: bool)
    requires !phase.Gone? && ChainOk(x, i, t.started)
    ensures var m := Track(x, t, i, phase, now, effective); ChainOk(m.x, i, m.t.started)
  {
    if phase.Won? {
      StartActionKeepsChain(x, i, t.started, Reload, ByIdle);
    } else {
      SameChain(x, Track(x, t, i, phase, now, effective).x, i, t.started);
    }
  }

  lemma TrackKeepsTally(x: Instance, t: Tally, i: nat, phase: ReqPhase, now: int, effective: bool)
    requires !phase.Gone? && Conserved(x, t)
    ensures var m := Track(x, t, i, phase, now, effective); Conserved(m.x, m.t)
  {
  }

  lemma TrackKeepsFlight(x: Instance, t: Tally, i: nat, reqs: seq<Req>, r: nat, now: int, effective: bool)
    requires r < |reqs| && reqs[r].inst == i && !reqs[r].phase.Gone? && x.inFlight == |LiveOn(reqs, i)|
    ensures var m := Track(x, t, i, reqs[r].phase, now, effective);
            m.x.inFlight == |LiveOn(reqs[r := Req(i, m.phase)], i)|
  {
    var m := Track(x, t, i, reqs[r].phase, now, effective);
    var live, live' := LiveOn(reqs, i), LiveOn(reqs[r := Req(i, m.phase)], i);
    OnlyLiveMatters(reqs, r, m.phase, i);
    assert r in live <==> reqs[r].Live();
    if reqs[r].phase.Fresh? {
      assert live' == live + {r};
    } else if reqs[r].phase.Serving? {
      assert live' == live - {r};
    } else {
      assert live' == live;
    }
  }

  lemma TrackKeepsFlag(x: Instance, t: Tally, i: nat, reqs: seq<Req>, r: nat, now: int, effective: bool)
    requires r < |reqs| && reqs[r].inst == i && !reqs[r].phase.Gone? && FlagOk(x, t, reqs, i)
    ensures var m := Track(x, t, i, reqs[r].phase, now, effective); FlagOk(m.x, m.t, reqs[r := Req(i, m.phase)], i)
  {
  }

  lemma WakeStaysPending(reqs: seq<Req>, r: nat, p: ReqPhase, i: nat)
    requires r < |reqs| && reqs[r].inst == i && WakePending(reqs, i) && !reqs[r].phase.Won?
    ensures WakePending(reqs[r := Req(i, p)], i)
  {
    var w :| 0 <= w < |reqs| && reqs[w] == Req(i, Won);
    assert reqs[r := Req(i, p)][w] == Req(i, Won);
  }

  lemma TrackKeepsAgreement(x: Instance, t: Tally, i: nat, reqs: seq<Req>, r: nat, now: int, effective: bool)
    requires r < |reqs| && reqs[r].inst == i && !reqs[r].phase.Gone?
    requires Agrees(x, t, effective, reqs, i)
    ensures var m := Track(x, t, i, reqs[r].phase, now, effective);
            Agrees(m.x, m.t, effective, reqs[r := Req(i, m.phase)], i)
  {
    var m := Track(x, t, i, reqs[r].phase, now, effective);
    if !reqs[r].phase.Won? {
      if m.phase == Won {
        assert reqs[r := Req(i, m.phase)][r] == Req(i, Won);
      } else if WakePending(reqs, i) {
        WakeStaysPending(reqs, r, m.phase, i);
      }
    }
  }

  lemma OwnReqKeepsInst(s: Sys, r: nat)
    requires Shape(s) && Enabled(s, ReqStep(r)) && InstOk(s, s.reqs[r].inst)
    ensures InstOk(ReqNext(s, r), s.reqs[r].inst)
  {
    var Req(i, phase) := s.reqs[r];
    var x, t := s.ctl.insts[i], s.tally[i];
    TrackKeepsChain(x, t, i, phase, s.now, s.ctl.effective);
    TrackKeepsTally(x, t, i, phase, s.now, s.ctl.effective);
    TrackKeepsFlight(x, t, i, s.reqs, r, s.now, s.ctl.effective);
    TrackKeepsFlag(x, t, i, s.reqs, r, s.now, s.ctl.effective);
    TrackKeepsAgreement(x, t, i, s.reqs, r, s.now, s.ctl.effective);
  }

  /** A request that comes while the poller is past its inFlight load counts as late. */
  lemma ReqStepKeepsWindow(s: Sys, r: nat)
    requires Shape(s) && Enabled(s, ReqStep(r)) && WindowOk(s)
    ensures WindowOk(ReqNext(s, r))
  {
    if s.poller.At? {
      OnlyLiveMatters(s.reqs, r, MoveOf(s, r).phase, s.poller.i);
    }
  }

  lemma ReqStepKeepsServe(s: Sys, r: nat)
    requires Shape(s) && Enabled(s, ReqStep(r)) && ServeOk(s)
    ensures ServeOk(ReqNext(s, r))
  {
  }

  lemma ReqStepKeepsInst(s: Sys, r: nat, i: nat)
    requires Shape(s) && Enabled(s, ReqStep(r)) && i < |s.ctl.insts| && InstOk(s, i)
    ensures InstOk(ReqNext(s, r), i)
  {
    if i == s.reqs[r].inst {
      OwnReqKeepsInst(s, r);
    } else {
      OtherReqKeepsInst(s, r, i);
    }
  }

  lemma ReqStepKeepsInv(s: Sys, r: nat)
    requires Inv(s) && Enabled(s, ReqStep(r))
    ensures Inv(Next(s, ReqStep(r)))
  {
    var s' := Next(s, ReqStep(r));
    ReqStepKeepsWindow(s, r);
    ReqStepKeepsServe(s, r);
    forall i | 0 <= i < |s'.ctl.insts|
      ensures InstOk(s', i)
    {
      ReqStepKeepsInst(s, r, i);
    }
  }

  /** A goroutine that starts the first action not yet started, or finishes the one started last. */
  lemma ActionKeepsChain(x: Instance, i: nat, started: seq<Kind>, k: nat)
    requires ChainOk(x, i, started) && k < |x.actions|
    ensures x.actions[k].status == Blocked && (k == 0 || x.actions[k - 1].status == Finished) ==>
              ChainOk(SetStatus(x, k, Running), i, started + [x.actions[k].kind])
    ensures x.actions[k].status == Running ==> ChainOk(SetStatus(x, k, Finished), i, started)
    ensures forall status :: LastIsUnload(SetStatus(x, k, status)) <==> LastIsUnload(x)
  {
  }

  lemma ActionKeepsInst(s: Sys, e: Event, i: nat, k: nat)
    requires Shape(s) && Enabled(s, e) && (e == Start(i, k) || e == Finish(i, k)) && InstOk(s, i)
    ensures InstOk(Next(s, e), i)
  {
    ActionKeepsChain(s.ctl.insts[i], i, s.tally[i].started, k);
  }

  lemma ActionStepKeepsInv(s: Sys, e: Event)
    requires Inv(s) && Enabled(s, e) && (e.Start? || e.Finish?)
    ensures Inv(Next(s, e))
  {
    var s' := Next(s, e);
    ActionKeepsInst(s, e, e.i, e.k);
    forall i | 0 <= i < |s.ctl.insts|
      ensures InstOk(s', i)
    {
      assert InstOk(s, i);
      if i != e.i {
        assert s'.ctl.insts[i] == s.ctl.insts[i] && s'.tally[i] == s.tally[i];
      }
    }
  }

  lemma StepKeepsDebounce(s: Sys, e: Event)
    requires Shape(s) && Enabled(s, e) && DebounceOk(s)
    ensures DebounceOk(Next(s, e))
  {
    if e.Refresh? {
      var h := s.history + [e.o];
      assert h[..|h| - 1] == s.history && h[|h| - 1] == e.o;
    }
  }

  lemma NextKeepsInv(s: Sys, e: Event)
    requires Inv(s) && Enabled(s, e)
    ensures Inv(Next(s, e))
  {
    StepKeepsDebounce(s, e);
    match e
    case Refresh(_) => RegionKeepsInv(s, e);
    case ChangeMode(_) => RegionKeepsInv(s, e);
    case PollStep => PollStepKeepsInv(s);
    case ReqStep(r) => ReqStepKeepsInv(s, r);
    case Start(_, _) => ActionStepKeepsInv(s, e);
    case Finish(_, _) => ActionStepKeepsInv(s, e);
    case _ =>
      forall i | 0 <= i < |s.ctl.insts|
        ensures InstOk(Next(s, e), i)
      {
        assert InstOk(s, i);
      }
  }

  lemma {:induction false} RunKeepsInv(s: Sys, es: seq<Event>)
    requires Inv(s) && CanRun(s, es)
    ensures Inv(Run(s, es))
    decreases |es|
  {
    if es != [] {
      NextKeepsInv(s, es[0]);
      RunKeepsInv(Next(s, es[0]), es[1..]);
    }
  }

  // ----- what holds over whole runs -----

  function Kinds(actions: seq<Action>): (r: seq<Kind>) {
    seq(|actions|, k requires 0 <= k < |actions| => actions[k].kind)
  }

  /** `s` is reached from a fresh controller by some run. */
  ghost predicate Reachable(s: Sys) {
    exists polls: int, timeouts: seq<int>, now: int, targets: seq<nat>, es: seq<Event> ::
      && (forall r :: 0 <= r < |targets| ==> targets[r] < |timeouts|)
      && CanRun(Init(polls, timeouts, now, targets), es)
      && s == Run(Init(polls, timeouts, now, targets), es)
  }

  lemma ReachableInv(s: Sys)
    requires Reachable(s)
    ensures Inv(s)
  {
    var polls: int, timeouts: seq<int>, now: int, targets: seq<nat>, es: seq<Event> :|
      && (forall r :: 0 <= r < |targets| ==> targets[r] < |timeouts|)
      && CanRun(Init(polls, timeouts, now, targets), es)
      && s == Run(Init(polls, timeouts, now, targets), es);
    InitInv(polls, timeouts, now, targets);
    RunKeepsInv(Init(polls, timeouts, now, targets), es);
  }

  /** The calls an instance has seen are a prefix of the actions queued for it, with at most the last one in progress. */
  lemma ExecutedInOrder(s: Sys, i: nat)
    requires Reachable(s) && i < |s.ctl.insts|
    ensures Shape(s)
    ensures var x, started := s.ctl.insts[i], s.tally[i].started;
            && started <= Kinds(x.actions)
            && (forall k :: 0 <= k < |x.actions| && x.actions[k].status == Running ==> k == |started| - 1)
            && (forall k :: 0 <= k < |started| - 1 ==> x.actions[k].status == Finished)
  {
    ReachableInv(s);
    assert InstOk(s, i);
  }

  /** The earliest unfinished action of an instance is running, or waits on nothing: no chain can block, or block another. */
  lemma NeverDeadlocked(s: Sys, i: nat, k: nat)
    requires Reachable(s) && i < |s.ctl.insts| && k < |s.ctl.insts[i].actions|
    requires forall j :: 0 <= j < k ==> s.ctl.insts[i].actions[j].status == Finished
    requires s.ctl.insts[i].actions[k].status != Finished
    ensures var a := s.ctl.insts[i].actions[k];
            && Shape(s)
            && (Enabled(s, Finish(i, k)) || Enabled(s, Start(i, k)))
            && a.wait == (if k == 0 then None else Some(Chan(i, k - 1)))
  {
    ReachableInv(s);
    assert InstOk(s, i);
  }

  /**
   A handler taken from end to end: it counts itself and stamps the clock, wakes the instance iff
   its flag is up, and when it is done takes its count back and stamps the clock again.
   */
  lemma HandlerEndToEnd(x: Instance, t: Tally, i: nat, now: int, later: int, effective: bool)
    ensures var m1 := Track(x, t, i, Fresh, now, effective);
            var m2 := Track(m1.x, m1.t, i, m1.phase, now, effective);
            var m3 := Track(m2.x, m2.t, i, m2.phase, now, effective);
            var m4 := if m3.phase.Won? then Track(m3.x, m3.t, i, m3.phase, now, effective) else m3;
            var m5 := Track(m4.x, m4.t, i, m4.phase, later, effective);
            var m6 := Track(m5.x, m5.t, i, m5.phase, later, effective);
            && m4.phase.Serving? && m4.x.inFlight == x.inFlight + 1 && m4.x.lastDispatch == now && !m4.x.idleUnloaded
            && m4.x.actions == x.actions + (if x.idleUnloaded then [Action(Reload, ByIdle, x.actionDone, Blocked)] else [])
            && m6.phase.Gone? && m6.x == m4.x.(inFlight := x.inFlight, lastDispatch := later)
  {
    assert x.actions + [] == x.actions;
  }

  /** Some reason has been seen by every one of the last `polls` observations. */
  ghost predicate Contended(s: Sys) {
    exists r :: Sustained(s.history, r, s.polls)
  }

  /**
   When the broker yields, told from the observations alone: when forced to, or in auto mode iff
   the last confirmPolls observations of the whole run all saw contention for one reason.
   */
  lemma YieldsIff(s: Sys)
    requires Reachable(s)
    ensures s.ctl.autoContended <==> Contended(s)
    ensures if s.ctl.autoContended then Sustained(s.history, s.ctl.autoReason, s.polls) else s.ctl.autoReason == ""
    ensures s.ctl.effective <==> s.ctl.mode == ForceYield || (s.ctl.mode == Auto && Contended(s))
  {
    ReachableInv(s);
    if s.history == [] {
      assert forall r :: !Sustained(s.history, r, s.polls);
    } else {
      ReportsSustainedContention(s.history, s.polls, s.ctl.autoReason);
      NoReasonUnlessReported(s.history, s.polls);
    }
  }

  /** An action that starts is running and counted; one that finishes lets its successor start. */
  lemma ActionRuns(s: Sys, i: nat, k: nat)
    requires Reachable(s) && Shape(s) && HasAction(s, i, k)
    ensures Enabled(s, Start(i, k)) ==>
              var s' := Next(s, Start(i, k));
              && s'.tally[i].started == s.tally[i].started + [s.ctl.insts[i].actions[k].kind]
              && Enabled(s', Finish(i, k))
    ensures Enabled(s, Finish(i, k)) ==>
              var s' := Next(s, Finish(i, k));
              && s'.ctl.insts[i].actions[k].status == Finished
              && (k + 1 < |s.ctl.insts[i].actions| ==> Enabled(s', Start(i, k + 1)))
  {
    ReachableInv(s);
    assert InstOk(s, i);
    var x, t := s.ctl.insts[i], s.tally[i];
    assert k + 1 < |x.actions| ==> x.actions[k + 1].wait == Some(Chan(i, k));
    assert x.actions[k].status == Running ==> k == |t.started| - 1;
  }

  /** Serve contexts over any run: all but the current one are dead, and it is dead iff the broker yields. */
  lemma ServeContexts(s: Sys, ctx: nat)
    requires Reachable(s) && ctx in s.captured
    ensures s.ctl.effective == Compute(s.ctl).0
    ensures ctx <= s.ctl.serve
    ensures ctx in s.ctl.cancelled <==> ctx < s.ctl.serve || s.ctl.effective
  {
    ReachableInv(s);
  }

  /** Every idle unload is answered by a wake, by a yield-clear, or by the flag still being up. */
  lemma IdleUnloadsConserved(s: Sys, i: nat)
    requires Reachable(s) && i < |s.ctl.insts|
    ensures Shape(s)
    ensures var t := s.tally[i];
            t.fires == t.wakes + t.clears + (if s.ctl.insts[i].idleUnloaded then 1 else 0)
  {
    ReachableInv(s);
    assert InstOk(s, i);
  }

  /**
   How the queue of an instance relates to what the controller believes, in every reachable
   state. While yielding, its last action is Unload iff no wake was queued since the yield began.
   While serving with no wake on the way, flag and chain agree, except exactly while the flag put
   up by an idle unload that crossed a wake is still up.
   */
  lemma ControllerAgrees(s: Sys, i: nat)
    requires Reachable(s) && i < |s.ctl.insts|
    ensures Shape(s)
    ensures var x, t := s.ctl.insts[i], s.tally[i];
            && (s.ctl.effective ==> (LastIsUnload(x) <==> !t.wokeInYield))
            && (!s.ctl.effective && LastIsUnload(x) ==> x.idleUnloaded || WakePending(s.reqs, i))
            && (!s.ctl.effective && !WakePending(s.reqs, i) ==>
                  ((LastIsUnload(x) <==> x.idleUnloaded) <==> !(x.idleUnloaded && t.crossed)))
  {
    ReachableInv(s);
    assert InstOk(s, i);
  }

  /**
   Once every queued action has run and no wake is on the way, what the instance was last told:
   to unload, while yielding, iff nothing woke it in this yield; while serving, iff its flag is up
   and did not cross a wake.
   */
  lemma InstanceSettles(s: Sys, i: nat)
    requires Reachable(s) && Shape(s) && i < |s.ctl.insts| && !WakePending(s.reqs, i)
    requires forall k :: 0 <= k < |s.ctl.insts[i].actions| ==> s.ctl.insts[i].actions[k].status == Finished
    ensures var x, t := s.ctl.insts[i], s.tally[i];
            t.started == Kinds(x.actions)
            && ((t.started != [] && t.started[|t.started| - 1] == Unload) <==>
                  if s.ctl.effective then !t.wokeInYield else x.idleUnloaded && !t.crossed)
  {
    ReachableInv(s);
    assert InstOk(s, i);
  }

  /**
   A request past its wake check that the last idle unload did not catch finds the flag down, and
   while serving its instance was not last told to unload, or a wake is on the way.
   */
  lemma ServedInstanceIsUp(s: Sys, r: nat)
    requires Reachable(s) && Shape(s) && r < |s.reqs| && s.reqs[r].PastCas() && r !in s.tally[s.reqs[r].inst].caught
    ensures var i := s.reqs[r].inst;
            && !s.ctl.insts[i].idleUnloaded
            && (!s.ctl.effective ==> !LastIsUnload(s.ctl.insts[i]) || WakePending(s.reqs, i))
  {
    ReachableInv(s);
    assert InstOk(s, s.reqs[r].inst);
  }

  /**
   Exactly when an idle unload meets live traffic: iff some request whose increment came after
   the poller had read inFlight is still in flight. The requests it meets are those, and no other.
   */
  lemma IdleUnloadMeetsOnlyLateRequests(s: Sys)
    requires Reachable(s) && s.poller.At? && Shape(s)
    requires s.tally[s.poller.i].fires < PollNext(s).tally[s.poller.i].fires
    ensures !s.ctl.effective
    ensures forall r :: r in LiveOn(s.reqs, s.poller.i) <==> r in s.poller.late && r < |s.reqs| && s.reqs[r].Live()
    ensures s.ctl.insts[s.poller.i].inFlight > 0 <==> exists r :: r in s.poller.late && r < |s.reqs| && s.reqs[r].Live()
  {
    ReachableInv(s);
    var live := LiveOn(s.reqs, s.poller.i);
    assert InstOk(s, s.poller.i);
    if live != {} {
      var r := AnyOf(live);
      assert r in s.poller.late && s.reqs[r].Live();
    }
  }

  ghost function AnyOf<T>(xs: set<T>): (x: T)
    requires xs != {}
    ensures x in xs
  {
    var x :| x in xs;
    x
  }

  /** The broker yields all through the run. */
  ghost predicate YieldLasts(s: Sys, es: seq<Event>)
    requires Shape(s) && CanRun(s, es)
    decreases |es|
  {
    s.ctl.effective && (es == [] || YieldLasts(Next(s, es[0]), es[1..]))
  }

  lemma YieldKeepsWoken(s: Sys, e: Event, i: nat)
    requires Shape(s) && Enabled(s, e) && i < |s.ctl.insts|
    requires s.ctl.effective && Next(s, e).ctl.effective && s.tally[i].wokeInYield
    ensures Next(s, e).tally[i].wokeInYield
  {
  }

  lemma {:induction false} WokenForTheYield(s: Sys, es: seq<Event>, i: nat)
    requires Inv(s) && CanRun(s, es) && YieldLasts(s, es) && i < |s.ctl.insts| && s.tally[i].wokeInYield
    ensures Run(s, es).ctl.effective && !LastIsUnload(Run(s, es).ctl.insts[i])
    decreases |es|
  {
    assert InstOk(s, i);
    if es != [] {
      NextKeepsInv(s, es[0]);
      YieldKeepsWoken(s, es[0], i);
      WokenForTheYield(Next(s, es[0]), es[1..], i);
    }
  }

  /**
   The wake CAS does not look at the yield state: a request that won it before or during a yield
   queues a Reload behind the Unload of the yield, and whatever happens next, the instance is
   never told to unload again as long as the yield lasts.
   */
  lemma WakeDuringYieldReloads(s: Sys, r: nat, es: seq<Event>)
    requires Reachable(s) && Shape(s) && s.ctl.effective && s.poller.Off? && r < |s.reqs| && s.reqs[r].phase.Won?
    requires CanRun(Next(s, ReqStep(r)), es) && YieldLasts(Next(s, ReqStep(r)), es)
    ensures var s' := Run(Next(s, ReqStep(r)), es);
            s'.ctl.effective && !LastIsUnload(s'.ctl.insts[s.reqs[r].inst])
  {
    ReachableInv(s);
    NextKeepsInv(s, ReqStep(r));
    WokenForTheYield(Next(s, ReqStep(r)), es, s.reqs[r].inst);
  }

  lemma {:induction false} RunAppend(s: Sys, es: seq<Event>, e: Event)
    requires Shape(s) && CanRun(s, es) && Enabled(Run(s, es), e)
    ensures CanRun(s, es + [e]) && Run(s, es + [e]) == Next(Run(s, es), e)
    decreases |es|
  {
    if es == [] {
      assert CanRun(Next(s, e), []);
      assert Run(s, [e]) == Run(Next(s, e), []);
    } else {
      RunAppend(Next(s, es[0]), es[1..], e);
      assert (es + [e])[1..] == es[1..] + [e];
    }
  }

  /** The events of a request that arrives, finds the flag down, and is served. */
  function Arrival(r: nat): (es: seq<Event>) {
    [ReqStep(r), ReqStep(r), ReqStep(r)]
  }

  /** The three steps of an arrival at an instance whose flag is down. */
  lemma ArrivalStep(s: Sys, r: nat, p: ReqPhase)
    requires Shape(s) && s.poller.At? && s.poller.stage == Fire && r < |s.reqs|
    requires s.reqs[r] == Req(s.poller.i, p) && !s.ctl.insts[s.poller.i].idleUnloaded
    requires p.Fresh? || p.Counted? || p.Stamped?
    ensures Enabled(s, ReqStep(r))
    ensures var i, x, s' := s.poller.i, s.ctl.insts[s.poller.i], Next(s, ReqStep(r));
            && s'.reqs == s.reqs[r := Req(i, if p.Fresh? then Counted else if p.Counted? then Stamped else Serving)]
            && s'.poller == At(i, Fire, if p.Fresh? then s.poller.late + {r} else s.poller.late)
            && s'.ctl == UpdateInst(s.ctl, i, if p.Fresh? then x.(inFlight := x.inFlight + 1)
                                              else if p.Counted? then x.(lastDispatch := s.now) else x)
            && s'.tally == s.tally
  {
  }

  lemma RunCons(s: Sys, e: Event, es: seq<Event>)
    requires Shape(s) && Enabled(s, e) && CanRun(Next(s, e), es)
    ensures CanRun(s, [e] + es) && Run(s, [e] + es) == Run(Next(s, e), es)
  {
    var all := [e] + es;
    assert all[0] == e && all[1..] == es;
  }

  lemma RunPair(s: Sys, s1: Sys, a: Event, b: Event)
    requires Shape(s) && Enabled(s, a) && s1 == Next(s, a) && Enabled(s1, b)
    ensures CanRun(s, [a, b]) && Run(s, [a, b]) == Next(s1, b)
  {
    RunCons(s1, b, []);
    RunCons(s, a, [b] + []);
    assert [a] + ([b] + []) == [a, b];
  }

  lemma RunTriple(s: Sys, s1: Sys, s2: Sys, a: Event, b: Event, c: Event)
    requires Shape(s) && Enabled(s, a) && s1 == Next(s, a)
    requires Enabled(s1, b) && s2 == Next(s1, b) && Enabled(s2, c)
    ensures CanRun(s, [a, b, c]) && Run(s, [a, b, c]) == Next(s2, c)
  {
    RunPair(s1, s2, b, c);
    RunCons(s, a, [b, c]);
    assert [a] + [b, c] == [a, b, c];
  }

  lemma ArrivalIsServed(s: Sys, r: nat)
    requires Shape(s) && s.poller.At? && s.poller.stage == Fire && r < |s.reqs| && s.reqs[r] == Req(s.poller.i, Fresh)
    requires !s.ctl.insts[s.poller.i].idleUnloaded
    ensures CanRun(s, Arrival(r))
    ensures var i, x, s' := s.poller.i, s.ctl.insts[s.poller.i], Run(s, Arrival(r));
            && s'.reqs == s.reqs[r := Req(i, Serving)] && s'.poller.At? && s'.poller.i == i && s'.poller.stage == Fire
            && s'.ctl.effective == s.ctl.effective && s'.ctl.insts[i].actions == x.actions
            && !s'.ctl.insts[i].idleUnloaded && s'.ctl.insts[i].inFlight == x.inFlight + 1
  {
    var i := s.poller.i;
    ArrivalStep(s, r, Fresh);
    var s1 := Next(s, ReqStep(r));
    assert s1.reqs[r] == Req(i, Counted);
    ArrivalStep(s1, r, Counted);
    var s2 := Next(s1, ReqStep(r));
    assert s2.reqs[r] == Req(i, Stamped);
    ArrivalStep(s2, r, Stamped);
    RunTriple(s, s1, s2, ReqStep(r), ReqStep(r), ReqStep(r));
    assert s.reqs[r := Req(i, Counted)][r := Req(i, Stamped)][r := Req(i, Serving)] == s.reqs[r := Req(i, Serving)];
  }

  /**
   The window is real. Whenever the poller is about to fire for an instance, a request that
   arrives just then is served without a wake, and the unload is queued behind its back.
   */
  lemma ArrivalInWindowIsUnloaded(s: Sys, r: nat)
    requires Inv(s) && s.poller.At? && s.poller.stage == Fire && !s.ctl.insts[s.poller.i].idleUnloaded
    requires r < |s.reqs| && s.reqs[r] == Req(s.poller.i, Fresh)
    requires forall d :: 0 <= d < |s.reqs| ==> s.reqs[d] != Req(s.poller.i, Won)
    ensures CanRun(s, Arrival(r) + [PollStep])
    ensures var i, s' := s.poller.i, Run(s, Arrival(r) + [PollStep]);
            && s'.reqs[r].phase.Serving? && LastIsUnload(s'.ctl.insts[i])
            && !WakePending(s'.reqs, i) && !s'.ctl.effective && r in s'.tally[i].caught
  {
    assert InstOk(s, s.poller.i);
    ArrivalIsServed(s, r);
    RunAppend(s, Arrival(r), PollStep);
  }

  /** One instance without a history, about to be unloaded, and one request yet to come. */
  ghost predicate AboutToFire(s: Sys, timeout: int) {
    && s.poller == At(0, Fire, {}) && s.reqs == [Req(0, Fresh)] && !s.ctl.effective && s.ctl.mode == Auto
    && s.ctl.insts == [Instance(timeout, 0, 0, false, None, [])] && |s.tally| == 1
  }

  /** Such a moment is reached at once: one instance, idle for its whole timeout, and one request. */
  lemma WindowIsReachable(timeout: int)
    requires timeout > 0
    ensures exists s: Sys :: Reachable(s) && AboutToFire(s, timeout)
  {
    var s0 := Init(1, [timeout], 0, [0]);
    var a, b := Tick(timeout), Refresh(Observation("", false));
    var s1 := Next(s0, a);
    var s2 := Next(s1, b);
    assert s2.poller == At(0, LoadFlight, {}) && !s2.ctl.effective && s2.reqs == [Req(0, Fresh)] && s2.now == timeout;
    assert s2.ctl.insts == [Instance(timeout, 0, 0, false, None, [])];
    RunTriple(s0, s1, s2, a, b, PollStep);
    var s3 := Next(s2, PollStep);
    assert s3 == s2.(poller := At(0, LoadFlag, {}));
    var es3 := [a, b, PollStep];
    RunAppend(s0, es3, PollStep);
    var es4 := es3 + [PollStep];
    assert Run(s0, es4) == s2.(poller := At(0, LoadLast, {}));
    RunAppend(s0, es4, PollStep);
    var s := s2.(poller := At(0, Fire, {}));
    assert s == Run(Init(1, [timeout], 0, [0]), es4 + [PollStep]);
    assert Reachable(s) && s2.ctl.mode == Auto && |s2.tally| == 1;
    assert AboutToFire(s, timeout);
  }

  lemma ReachableNext(s: Sys, e: Event)
    requires Reachable(s) && Shape(s) && Enabled(s, e)
    ensures Reachable(Next(s, e))
  {
    var polls: int, timeouts: seq<int>, now: int, targets: seq<nat>, es: seq<Event> :|
      && (forall r :: 0 <= r < |targets| ==> targets[r] < |timeouts|)
      && CanRun(Init(polls, timeouts, now, targets), es)
      && s == Run(Init(polls, timeouts, now, targets), es);
    RunAppend(Init(polls, timeouts, now, targets), es, e);
    assert Next(s, e) == Run(Init(polls, timeouts, now, targets), es + [e]);
  }

  /** One instance and one request at phase `p`; what such a state still leaves open does not matter. */
  ghost predicate Single(s: Sys, p: ReqPhase) {
    && s.reqs == [Req(0, p)] && |s.ctl.insts| == 1 && |s.tally| == 1 && Shape(s)
    && s.ctl.mode == Auto && !s.ctl.effective && s.ctl.insts[0].idleTimeout > 0
  }

  /** The unload fires. */
  lemma FlagGoesUp(s: Sys, timeout: int) returns (s': Sys)
    requires Reachable(s) && AboutToFire(s, timeout) && timeout > 0
    ensures Reachable(s') && Single(s', Fresh) && s'.poller.Off?
    ensures s'.ctl.insts[0].idleUnloaded && s'.ctl.insts[0].inFlight == 0
  {
    ReachableNext(s, PollStep);
    s' := Next(s, PollStep);
  }

  /** A request arrives at an instance whose flag is up, and wins its wake. */
  lemma WakeStep(s: Sys, p: ReqPhase)
    requires Single(s, p) && (p.Fresh? || p.Counted? || p.Stamped?) && s.ctl.insts[0].idleUnloaded
    ensures Enabled(s, ReqStep(0))
    ensures var s' := Next(s, ReqStep(0));
            && Single(s', if p.Fresh? then Counted else if p.Counted? then Stamped else Won)
            && (s'.ctl.insts[0].idleUnloaded <==> !p.Stamped?)
            && (p.Counted? ==> s'.ctl.insts[0].lastDispatch == s.now)
            && (!p.Counted? ==> s'.ctl.insts[0].lastDispatch == s.ctl.insts[0].lastDispatch)
            && s'.now == s.now && s'.poller.At? == s.poller.At?
            && (s.poller.At? ==> s'.poller.i == s.poller.i && s'.poller.stage == s.poller.stage)
  {
  }

  lemma WakeIsWon(s: Sys) returns (s': Sys)
    requires Reachable(s) && Single(s, Fresh) && s.ctl.insts[0].idleUnloaded
    ensures Reachable(s') && Single(s', Won) && !s'.ctl.insts[0].idleUnloaded && s'.ctl.insts[0].lastDispatch == s'.now
    ensures s'.poller.At? == s.poller.At?
    ensures s.poller.At? ==> s'.poller.i == s.poller.i && s'.poller.stage == s.poller.stage
  {
    WakeStep(s, Fresh);
    ReachableNext(s, ReqStep(0));
    var s1 := Next(s, ReqStep(0));
    WakeStep(s1, Counted);
    ReachableNext(s1, ReqStep(0));
    var s2 := Next(s1, ReqStep(0));
    WakeStep(s2, Stamped);
    ReachableNext(s2, ReqStep(0));
    s' := Next(s2, ReqStep(0));
  }

  /** A quiet poll reads inFlight before the request has counted itself. */
  lemma PollReadsZero(s: Sys) returns (s': Sys)
    requires Reachable(s) && Single(s, Fresh) && s.poller.Off? && s.ctl.insts[0].inFlight == 0
    ensures Reachable(s') && Single(s', Fresh) && s'.poller == At(0, LoadFlag, {})
    ensures s'.ctl.insts == s.ctl.insts
  {
    var quiet := Refresh(Observation("", false));
    ReachableNext(s, quiet);
    var s1 := Next(s, quiet);
    assert s1.poller == At(0, LoadFlight, {}) && Single(s1, Fresh) && s1.ctl.insts == s.ctl.insts;
    ReachableNext(s1, PollStep);
    s' := Next(s1, PollStep);
  }

  /** With the wake won but not queued, a slow poller still gets to fire. */
  lemma PollReachesFire(s: Sys) returns (s': Sys)
    requires Reachable(s) && Single(s, Won) && s.poller.At? && s.poller.i == 0 && s.poller.stage == LoadFlag
    requires !s.ctl.insts[0].idleUnloaded && s.ctl.insts[0].lastDispatch == s.now
    ensures Reachable(s') && Single(s', Won) && s'.poller.At? && s'.poller.i == 0 && s'.poller.stage == Fire
    ensures !s'.ctl.insts[0].idleUnloaded
  {
    ReachableNext(s, PollStep);
    var s1 := Next(s, PollStep);
    var wait := Tick(s.ctl.insts[0].idleTimeout);
    ReachableNext(s1, wait);
    var s2 := Next(s1, wait);
    assert s2.now - s2.ctl.insts[0].lastDispatch >= s2.ctl.insts[0].idleTimeout;
    ReachableNext(s2, PollStep);
    s' := Next(s2, PollStep);
  }

  lemma FireUnderWake(s: Sys) returns (s': Sys)
    requires Reachable(s) && Single(s, Won) && s.poller.At? && s.poller.i == 0 && s.poller.stage == Fire
    requires !s.ctl.insts[0].idleUnloaded
    ensures Reachable(s') && Single(s', Won) && s'.poller.Off? && s'.ctl.insts[0].idleUnloaded && s'.tally[0].crossed
  {
    assert s.reqs[0] == Req(0, Won) && WakePending(s.reqs, 0);
    ReachableNext(s, PollStep);
    s' := Next(s, PollStep);
  }

  /** The wake is queued behind the unload that crossed it. */
  lemma FireCrosses(s: Sys) returns (s': Sys)
    requires Reachable(s) && Single(s, Won) && s.poller.At? && s.poller.i == 0 && s.poller.stage == Fire
    requires !s.ctl.insts[0].idleUnloaded
    ensures Reachable(s') && Single(s', Serving) && s'.ctl.insts[0].idleUnloaded && s'.tally[0].crossed
    ensures !LastIsUnload(s'.ctl.insts[0])
  {
    var s1 := FireUnderWake(s);
    ReachableNext(s1, ReqStep(0));
    s' := Next(s1, ReqStep(0));
  }

  /** The exception of ControllerAgrees does occur: the flag is up, and the last action is the Reload of the wake. */
  lemma CrossingIsReachable(timeout: int)
    requires timeout > 0
    ensures exists s: Sys :: Reachable(s) && !s.ctl.effective && s.reqs == [Req(0, Serving)] && |s.ctl.insts| == 1
                             && s.ctl.insts[0].idleUnloaded && !LastIsUnload(s.ctl.insts[0])
  {
    WindowIsReachable(timeout);
    var s: Sys :| Reachable(s) && AboutToFire(s, timeout);
    var up := FlagGoesUp(s, timeout);
    var polling := PollReadsZero(up);
    var won := WakeIsWon(polling);
    var firing := PollReachesFire(won);
    var crossed := FireCrosses(firing);
  }

  /** A yield can begin between the wake CAS and its lock: WakeDuringYieldReloads does happen. */
  lemma WakeDuringYieldIsReachable(timeout: int)
    requires timeout > 0
    ensures exists s: Sys :: Reachable(s) && s.ctl.effective && s.poller.Off? && s.reqs == [Req(0, Won)]
  {
    WindowIsReachable(timeout);
    var s: Sys :| Reachable(s) && AboutToFire(s, timeout);
    var up := FlagGoesUp(s, timeout);
    var won := WakeIsWon(up);
    ReachableNext(won, ChangeMode(ForceYield));
    var s' := Next(won, ChangeMode(ForceYield));
    assert s'.ctl.effective && s'.poller.Off? && s'.reqs == [Req(0, Won)];
  }

  /** The poller has got this far because every test before held. */
  ghost predicate Passed(s: Sys) {
    && Shape(s) && s.poller.At?
    && var x := s.ctl.insts[s.poller.i];
       && (s.poller.stage != LoadFlight ==> x.idleTimeout != 0 && !s.ctl.effective && x.inFlight <= 0)
       && (s.poller.stage == LoadLast || s.poller.stage == Fire ==> !x.idleUnloaded)
       && (s.poller.stage == Fire ==> s.now - x.lastDispatch >= x.idleTimeout)
  }

  ghost predicate Swept(s: Sys, s': Sys)
    requires Shape(s) && s.poller.At?
  {
    && s'.poller == Advance(s) && s'.reqs == s.reqs && s'.now == s.now
    && s'.ctl == UpdateInst(s.ctl, s.poller.i, IdleCheck(s.ctl.insts[s.poller.i], s.poller.i, s.ctl.effective, s.now))
  }

  function Left(stage: Stage): (n: nat) {
    match stage case LoadFlight => 3 case LoadFlag => 2 case LoadLast => 1 case Fire => 0
  }

  /** One access either settles the check of the instance, or only moves the poller on. */
  lemma OneAccess(s: Sys)
    requires Passed(s)
    ensures var s' := PollNext(s);
            || Swept(s, s')
            || (Passed(s') && s' == s.(poller := s'.poller) && s'.poller.i == s.poller.i
                && Left(s'.poller.stage) < Left(s.poller.stage))
  {
    var i := s.poller.i;
    assert s.ctl.insts[i := s.ctl.insts[i]] == s.ctl.insts;
  }

  lemma {:induction false} OneInstanceSwept(s: Sys) returns (s': Sys, es: seq<Event>)
    requires Passed(s)
    ensures (forall k :: 0 <= k < |es| ==> es[k] == PollStep) && CanRun(s, es) && s' == Run(s, es)
    ensures Swept(s, s')
    decreases Left(s.poller.stage)
  {
    OneAccess(s);
    s' := Next(s, PollStep);
    if Swept(s, s') {
      RunCons(s, PollStep, []);
      es := [PollStep] + [];
    } else {
      var from, rest := s', [];
      s', rest := OneInstanceSwept(from);
      RunCons(s, PollStep, rest);
      es := [PollStep] + rest;
    }
  }

  /** With no request interfering, the sweep of the poller is what CheckIdle says in one go. */
  lemma {:induction false} SweepIsCheckIdle(s: Sys) returns (es: seq<Event>)
    requires Shape(s) && s.poller.At? && s.poller.stage == LoadFlight
    ensures (forall k :: 0 <= k < |es| ==> es[k] == PollStep) && CanRun(s, es)
    ensures var s' := Run(s, es);
            && s'.poller.Off? && s'.reqs == s.reqs
            && s'.ctl == s.ctl.(insts := s'.ctl.insts)
            && forall k :: 0 <= k < |s.ctl.insts| ==>
                 s'.ctl.insts[k] == if k < s.poller.i then s.ctl.insts[k]
                                    else IdleCheck(s.ctl.insts[k], k, s.ctl.effective, s.now)
    decreases |s.ctl.insts| - s.poller.i
  {
    var s1, steps := OneInstanceSwept(s);
    if s1.poller.Off? {
      es := steps;
    } else {
      var rest := SweepIsCheckIdle(s1);
      es := steps + rest;
      RunConcat(s, steps, rest);
    }
  }

  lemma {:induction false} RunConcat(s: Sys, es: seq<Event>, fs: seq<Event>)
    requires Shape(s) && CanRun(s, es) && CanRun(Run(s, es), fs)
    ensures CanRun(s, es + fs) && Run(s, es + fs) == Run(Run(s, es), fs)
    decreases |es|
  {
    if es == [] {
      assert es + fs == fs;
    } else {
      assert (es + fs)[0] == es[0] && (es + fs)[1..] == es[1..] + fs;
      RunConcat(Next(s, es[0]), es[1..], fs);
    }
  }
}
