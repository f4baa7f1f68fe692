/** The yield controller: what each mutex-held region does, as functions from state to state. */
module YieldSpec {
  import opened Wrappers

  datatype Mode = Auto | ForceYield | ForceServe

  // ----- debounce -----

  datatype Observation = Observation(reason: string, contended: bool)

  /** confirmCount and confirmReason. */
  datatype Debounce = Debounce(count: nat, reason: string)

  const FRESH := Debounce(0, "")

  function Count(d: Debounce, o: Observation): (d': Debounce) {
    if !o.contended then FRESH
    else if o.reason == d.reason then Debounce(d.count + 1, d.reason)
    else Debounce(1, o.reason)
  }

  /** debounceLocked: what it reports once it has counted `o`. */
  function Report(d: Debounce, polls: nat, o: Observation): (r: (bool, string)) {
    if o.contended && Count(d, o).count >= polls then (true, o.reason) else (false, "")
  }

  // ----- instances and their action chains -----

  datatype Kind = Unload | Reload

  datatype Trigger = ByYield | ByIdle

  datatype Status = Blocked | Running | Finished

  /** The done channel of the `n`-th action of instance `inst`; `make` hands each out once. */
  datatype Chan = Chan(inst: nat, n: nat)

  /** One doUnload or doReload goroutine. Its own done channel is closed when it is Finished. */
  datatype Action = Action(kind: Kind, trigger: Trigger, wait: Option<Chan>, status: Status)

  datatype Instance = Instance(
    idleTimeout: int,
    lastDispatch: int,
    inFlight: int,
    idleUnloaded: bool,
    actionDone: Option<Chan>,
    actions: seq<Action>)

  datatype Ctl = Ctl(
    mode: Mode,
    autoContended: bool,
    autoReason: string,
    effective: bool,
    debounce: Debounce,
    serve: nat,             // the current serve context; contexts are numbered as they are made
    cancelled: set<nat>,
    insts: seq<Instance>)

  /** startAction and the goroutine its caller spawns. */
  function StartAction(x: Instance, i: nat, kind: Kind, trigger: Trigger): (x': Instance) {
    x.(actionDone := Some(Chan(i, |x.actions|)),
       actions := x.actions + [Action(kind, trigger, x.actionDone, Blocked)])
  }

  function Compute(c: Ctl): (r: (bool, string)) {
    match c.mode
    case ForceYield => (true, "manual")
    case ForceServe => (false, "")
    case Auto => (c.autoContended, c.autoReason)
  }

  /** One action of the same kind spawned on every instance. */
  function SpawnAll(xs: seq<Instance>, kind: Kind): (ys: seq<Instance>)
    ensures |ys| == |xs| && forall k :: 0 <= k < |xs| ==> ys[k] == StartAction(xs[k], k, kind, ByYield)
  {
    seq(|xs|, i requires 0 <= i < |xs| => StartAction(xs[i], i, kind, ByYield))
  }

  /** Every instance counts as freshly dispatched and not idle-unloaded. */
  function ResetAll(xs: seq<Instance>, now: int): (ys: seq<Instance>)
    ensures |ys| == |xs| && forall k :: 0 <= k < |xs| ==> ys[k] == xs[k].(lastDispatch := now, idleUnloaded := false)
  {
    seq(|xs|, i requires 0 <= i < |xs| => xs[i].(lastDispatch := now, idleUnloaded := false))
  }

  /** applyLocked. */
  function Apply(c: Ctl, now: int): (c': Ctl) {
    var eff := Compute(c).0;
    if eff == c.effective then c
    else if eff then
      c.(effective := true, cancelled := c.cancelled + {c.serve},
         insts := SpawnAll(c.insts, Unload))
    else
      c.(effective := false, serve := c.serve + 1,
         insts := ResetAll(SpawnAll(c.insts, Reload), now))
  }

  /** What checkIdleLocked does to one instance when no request interferes. */
  function IdleCheck(x: Instance, i: nat, effective: bool, now: int): (x': Instance) {
    if x.idleTimeout != 0 && !effective && x.inFlight <= 0 && !x.idleUnloaded && now - x.lastDispatch >= x.idleTimeout
    then StartAction(x, i, Unload, ByIdle).(idleUnloaded := true)
    else x
  }

  function AllChecked(xs: seq<Instance>, effective: bool, now: int): (ys: seq<Instance>)
    ensures |ys| == |xs| && forall k :: 0 <= k < |xs| ==> ys[k] == IdleCheck(xs[k], k, effective, now)
  {
    seq(|xs|, i requires 0 <= i < |xs| => IdleCheck(xs[i], i, effective, now))
  }

  function CheckIdle(c: Ctl, now: int): (c': Ctl) {
    c.(insts := AllChecked(c.insts, c.effective, now))
  }

  function SetMode(c: Ctl, m: Mode, now: int): (c': Ctl) {
    Apply(c.(mode := m), now)
  }

  /** refresh up to and including applyLocked. */
  function Poll(c: Ctl, polls: nat, o: Observation, now: int): (c': Ctl) {
    var (contended, reason) := Report(c.debounce, polls, o);
    Apply(c.(debounce := Count(c.debounce, o), autoContended := contended, autoReason := reason), now)
  }

  function Refresh(c: Ctl, polls: nat, o: Observation, now: int): (c': Ctl) {
    CheckIdle(Poll(c, polls, o, now), now)
  }

  function UpdateInst(c: Ctl, i: nat, x: Instance): (c': Ctl)
    requires i < |c.insts|
  {
    c.(insts := c.insts[i := x])
  }
}

/** Debouncing refines a question about the whole history of observations. */
module DebounceHistory {
  import opened YieldSpec

  /** The counter after every observation of `h`, oldest first. */
  function After(h: seq<Observation>): (d: Debounce) {
    if h == [] then FRESH else Count(After(h[..|h| - 1]), h[|h| - 1])
  }

  function LastReport(h: seq<Observation>, polls: nat): (r: (bool, string))
    requires h != []
  {
    Report(After(h[..|h| - 1]), polls, h[|h| - 1])
  }

  /** The last `n` observations are all contention for reason `r`. */
  ghost predicate Sustained(h: seq<Observation>, r: string, n: nat) {
    n <= |h| && forall k :: |h| - n <= k < |h| ==> h[k] == Observation(r, true)
  }

  /** The counter is the length of the longest sustained suffix, and nothing when there is none. */
  lemma {:induction false} CounterIsSuffixLength(h: seq<Observation>, r: string, n: nat)
    requires 1 <= n
    ensures Sustained(h, r, n) <==> After(h).reason == r && After(h).count >= n && h != [] && h[|h| - 1].contended
  {
    if h != [] {
      var init, o := h[..|h| - 1], h[|h| - 1];
      if n > 1 {
        CounterIsSuffixLength(init, r, n - 1);
      }
      CounterIsSuffixLength(init, r, 1);
      if init == [] || !init[|init| - 1].contended {
        NoContentionNoCount(init);
      }
      assert forall k :: 0 <= k < |init| ==> init[k] == h[k];
      assert Sustained(h, r, n) <==> o == Observation(r, true) && (n == 1 || Sustained(init, r, n - 1)) by {
        if o == Observation(r, true) && n > 1 && Sustained(init, r, n - 1) {
          assert forall k :: |h| - n <= k < |h| - 1 ==> h[k] == init[k];
        }
      }
    }
  }

  lemma NoContentionNoCount(h: seq<Observation>)
    requires h == [] || !h[|h| - 1].contended
    ensures After(h) == FRESH
  {
  }

  /** Contention is reported, with reason `r`, iff the last `polls` observations all saw `r`. */
  lemma ReportsSustainedContention(h: seq<Observation>, polls: nat, r: string)
    requires 1 <= polls && h != []
    ensures LastReport(h, polls) == (true, r) <==> Sustained(h, r, polls)
    ensures !LastReport(h, polls).0 <==> !exists x :: Sustained(h, x, polls)
  {
    var o := h[|h| - 1];
    CounterIsSuffixLength(h, r, polls);
    CounterIsSuffixLength(h, o.reason, polls);
    if LastReport(h, polls).0 {
      assert Sustained(h, o.reason, polls);
    }
    forall x | Sustained(h, x, polls)
      ensures x == o.reason && o.contended
    {
      assert h[|h| - 1] == Observation(x, true);
    }
  }

  lemma NoReasonUnlessReported(h: seq<Observation>, polls: nat)
    requires h != []
    ensures !LastReport(h, polls).0 ==> LastReport(h, polls).1 == ""
  {
  }
}
