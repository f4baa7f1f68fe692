/**
 Any number of requests parking while one drain loop releases them. A step is one locked
 region, one select choice, one close, or a change in the environment: a hold timer firing, a
 client hanging up, shutdown, or the yield state flipping.
 */
module ParkRaces {
  import opened Wrappers
  import opened Slices
  import opened ParkSpec

  datatype Phase =
    | Out                                                // not in parkFor
    | Parked(e: nat)                                     // in select
    | CtxFired(e: nat)                                   // chose hctx.Done(), release not rechecked yet
    | Removing(e: nat, shut: bool)                       // about to call remove
    | Removed(e: nat)                                    // removed itself, about to look at ctx.Err()
    | Returned(result: ParkResult, entry: Option<nat>)
  {
    predicate WaitsOn(x: nat) {
      (Parked? || CtxFired? || Removing?) && e == x
    }
  }

  datatype Client = Client(phase: Phase, held: bool, gone: bool)

  /** The drain goroutine: between ticks, after each of its two looks, or closing a batch. */
  datatype Drain = Ticking | Probed | Ready(burst: nat) | Closing(batch: seq<nat>)

  datatype Sys = Sys(
    cfg: ParkConfig,
    q: seq<nat>,
    makers: seq<nat>,      // makers[e] is the client that created entry e
    log: seq<nat>,         // entries spliced out by drainOneBurst, in order
    closed: seq<nat>,      // release channels closed, in order
    removed: set<nat>,     // entries that removed themselves
    clients: seq<Client>,
    drain: Drain,
    yielding: bool,
    shutdown: bool)

  datatype Event =
    | Enter(c: nat)
    | HoldElapses(c: nat)
    | HangUp(c: nat)
    | SelectRelease(c: nat)
    | SelectCtx(c: nat)
    | Recheck(c: nat)
    | SelectShutdown(c: nat)
    | RemoveSelf(c: nat)
    | Classify(c: nat)
    | Take(c: nat)
    | ShutDown
    | SetYielding(on: bool)
    | Probe
    | Look
    | Splice
    | CloseOne

  predicate At(s: Sys, c: nat) {
    c < |s.clients|
  }

  predicate Enabled(s: Sys, e: Event) {
    match e
    case Enter(c) => At(s, c) && s.clients[c].phase.Out?
    case HoldElapses(c) => At(s, c) && (s.clients[c].phase.Parked? || s.clients[c].phase.CtxFired? || s.clients[c].phase.Removing?)
    case HangUp(c) => At(s, c)
    case SelectRelease(c) => At(s, c) && s.clients[c].phase.Parked? && s.clients[c].phase.e in s.closed
    case SelectCtx(c) => At(s, c) && s.clients[c].phase.Parked? && (s.clients[c].held || s.clients[c].gone)
    case Recheck(c) => At(s, c) && s.clients[c].phase.CtxFired?
    case SelectShutdown(c) => At(s, c) && s.clients[c].phase.Parked? && s.shutdown
    case RemoveSelf(c) => At(s, c) && s.clients[c].phase.Removing?
    case Classify(c) => At(s, c) && s.clients[c].phase.Removed?
    case Take(c) => At(s, c) && s.clients[c].phase.Returned?
    case ShutDown => true
    case SetYielding(_) => true
    case Probe => s.drain.Ticking? && !s.yielding
    case Look => s.drain.Probed?
    case Splice => s.drain.Ready?
    case CloseOne => s.drain.Closing?
  }

  function SetPhase(s: Sys, c: nat, p: Phase): (s': Sys)
    requires At(s, c)
  {
    s.(clients := s.clients[c := s.clients[c].(phase := p)])
  }

  function Next(s: Sys, e: Event): (s': Sys)
    requires Enabled(s, e)
  {
    match e
    case Enter(c) =>
      (match ParkSpec.Enter(s.q, s.cfg, |s.makers|)
       case None => SetPhase(s, c, Returned(Rejected, None))
       case Some(q') => s.(q := q', makers := s.makers + [c],
                           clients := s.clients[c := Client(Parked(|s.makers|), false, s.clients[c].gone)]))
    case HoldElapses(c) => s.(clients := s.clients[c := s.clients[c].(held := true)])
    case HangUp(c) => s.(clients := s.clients[c := s.clients[c].(gone := true)])
    case SelectRelease(c) => SetPhase(s, c, Returned(Released, Some(s.clients[c].phase.e)))
    case SelectCtx(c) => SetPhase(s, c, CtxFired(s.clients[c].phase.e))
    case Recheck(c) =>
      var x := s.clients[c].phase.e;
      SetPhase(s, c, if x in s.closed then Returned(Released, Some(x)) else Removing(x, false))
    case SelectShutdown(c) => SetPhase(s, c, Removing(s.clients[c].phase.e, true))
    case RemoveSelf(c) =>
      var x := s.clients[c].phase.e;
      if x !in s.q then SetPhase(s, c, Returned(Released, Some(x)))
      else SetPhase(s, c, if s.clients[c].phase.shut then Returned(Shutdown, Some(x)) else Removed(x))
           .(q := Without(s.q, x), removed := s.removed + {x})
    case Classify(c) =>
      SetPhase(s, c, Returned(if s.clients[c].gone then Canceled else Expired, Some(s.clients[c].phase.e)))
    case Take(c) => SetPhase(s, c, Out)
    case ShutDown => s.(shutdown := true)
    case SetYielding(on) => s.(yielding := on)
    case Probe => s.(drain := Probed)
    case Look => s.(drain := if s.q == [] then Ticking else Ready(s.cfg.drainBurst))
    case Splice =>
      var n := BurstSize(s.q, s.drain.burst);
      s.(q := s.q[n..], log := s.log + s.q[..n], drain := if n == 0 then Ticking else Closing(s.q[..n]))
    case CloseOne =>
      if s.drain.batch == [] then s.(drain := Ticking)
      else s.(closed := s.closed + [s.drain.batch[0]],
              drain := if |s.drain.batch| == 1 then Ticking else Closing(s.drain.batch[1..]))
  }

  predicate CanRun(s: Sys, es: seq<Event>)
    decreases |es|
  {
    es == [] || (Enabled(s, es[0]) && CanRun(Next(s, es[0]), es[1..]))
  }

  function Run(s: Sys, es: seq<Event>): (s': Sys)
    requires CanRun(s, es)
    decreases |es|
  {
    if es == [] then s else Run(Next(s, es[0]), es[1..])
  }

  function Init(cfg: ParkConfig, clients: nat): (s: Sys) {
    Sys(cfg, [], [], [], [], {}, seq(clients, _ => Client(Out, false, false)), Ticking, false, false)
  }

  // ----- the invariant -----

  function Batch(d: Drain): (b: seq<nat>) {
    if d.Closing? then d.batch else []
  }

  predicate Mine(s: Sys, c: nat, e: nat) {
    e < |s.makers| && s.makers[e] == c
  }

  /** What the position of client `c` says about its entry. */
  predicate ClientOk(s: Sys, c: nat)
    requires At(s, c)
  {
    var Client(p, held, gone) := s.clients[c];
    match p
    case Out => true
    case Parked(e) => Mine(s, c, e) && (e in s.q || e in s.log)
    case CtxFired(e) => Mine(s, c, e) && (e in s.q || e in s.log) && (held || gone)
    case Removing(e, shut) => Mine(s, c, e) && (e in s.q || e in s.log) && (if shut then s.shutdown else held || gone)
    case Removed(e) => Mine(s, c, e) && e in s.removed && (held || gone)
    case Returned(Rejected, entry) => entry == None
    case Returned(_, None) => false
    case Returned(Released, Some(e)) => Mine(s, c, e) && e in s.log
    case Returned(Expired, Some(e)) => Mine(s, c, e) && e in s.removed && held
    case Returned(Canceled, Some(e)) => Mine(s, c, e) && e in s.removed && gone
    case Returned(Shutdown, Some(e)) => Mine(s, c, e) && e in s.removed && s.shutdown
  }

  /** Entry `e` is one whose maker is still inside parkFor waiting on it. */
  predicate Waited(s: Sys, e: nat) {
    e < |s.makers| && At(s, s.makers[e]) && s.clients[s.makers[e]].phase.WaitsOn(e)
  }

  ghost predicate ClientsOk(s: Sys) {
    forall c :: 0 <= c < |s.clients| ==> ClientOk(s, c)
  }

  ghost predicate NoGhosts(s: Sys) {
    forall e :: e in s.q ==> Waited(s, e)
  }

  /** Every entry is in exactly one of the queue, the released log and the removed set. */
  ghost predicate Partitioned(s: Sys) {
    && (forall e :: e in s.removed ==> e < |s.makers| && e !in s.q && e !in s.log)
    && (forall e :: 0 <= e < |s.makers| ==> e in s.q || e in s.log || e in s.removed)
  }

  ghost predicate Inv(s: Sys) {
    && Orderly(s.log, s.q, s.cfg, |s.makers|)
    && s.closed + Batch(s.drain) == s.log
    && Partitioned(s) && NoGhosts(s) && ClientsOk(s)
  }

  predicate Quiet(e: Event) {
    !e.Enter? && !e.RemoveSelf? && !e.Splice?
  }

  /** What the environment and the drain loop do between its splices. */
  predicate NoClient(e: Event) {
    e.ShutDown? || e.SetYielding? || e.Probe? || e.Look? || e.CloseOne?
  }

  lemma BackgroundKeepsClients(s: Sys, e: Event)
    requires Enabled(s, e) && NoClient(e) && ClientsOk(s)
    ensures ClientsOk(Next(s, e))
  {
    forall c | 0 <= c < |s.clients|
      ensures ClientOk(Next(s, e), c)
    {
      assert ClientOk(s, c);
    }
  }

  /** A client's own step that leaves the queue alone touches nothing but the client. */
  lemma QuietIsLocal(s: Sys, e: Event)
    requires Enabled(s, e) && Quiet(e) && !NoClient(e)
    ensures Next(s, e) == s.(clients := s.clients[e.c := Next(s, e).clients[e.c]])
  {
  }

  lemma SelectKeepsOwn(s: Sys, e: Event)
    requires Enabled(s, e) && (e.SelectRelease? || e.SelectCtx? || e.SelectShutdown?) && ClientOk(s, e.c)
    requires forall x :: x in s.closed ==> x in s.log
    ensures ClientOk(Next(s, e), e.c)
  {
  }

  lemma QuietKeepsOwn(s: Sys, e: Event)
    requires Enabled(s, e) && Quiet(e) && !NoClient(e) && ClientOk(s, e.c)
    requires forall x :: x in s.closed ==> x in s.log
    ensures ClientOk(Next(s, e), e.c)
  {
    if e.SelectRelease? || e.SelectCtx? || e.SelectShutdown? {
      SelectKeepsOwn(s, e);
    }
  }

  /** Steps that leave the queue alone keep every client's account of its entry. */
  lemma QuietKeepsClients(s: Sys, e: Event)
    requires Enabled(s, e) && Quiet(e) && ClientsOk(s)
    requires forall x :: x in s.closed ==> x in s.log
    ensures ClientsOk(Next(s, e))
  {
    if NoClient(e) {
      BackgroundKeepsClients(s, e);
    } else {
      QuietIsLocal(s, e);
      QuietKeepsOwn(s, e);
      forall c | 0 <= c < |s.clients| && c != e.c
        ensures ClientOk(Next(s, e), c)
      {
        assert ClientOk(s, c);
      }
    }
  }

  lemma QuietKeepsNoGhosts(s: Sys, e: Event)
    requires Enabled(s, e) && Quiet(e) && NoGhosts(s)
    requires forall x :: x in s.closed ==> x !in s.q
    ensures NoGhosts(Next(s, e))
  {
  }

  lemma QuietKeepsInv(s: Sys, e: Event)
    requires Enabled(s, e) && Quiet(e) && Inv(s)
    ensures Inv(Next(s, e))
  {
    QueueAscends(s.log, s.q);
    assert forall x :: x in s.closed ==> x in s.closed + Batch(s.drain);
    QuietKeepsClients(s, e);
    QuietKeepsNoGhosts(s, e);
    if e.CloseOne? && s.drain.batch != [] {
      assert s.closed + s.drain.batch == s.closed + [s.drain.batch[0]] + s.drain.batch[1..];
    }
  }

  lemma EnterKeepsInv(s: Sys, c: nat)
    requires Enabled(s, Enter(c)) && Inv(s)
    ensures Inv(Next(s, Enter(c)))
  {
    var s' := Next(s, Enter(c));
    EnterKeepsOrder(s.log, s.q, s.cfg, |s.makers|);
    forall d | 0 <= d < |s'.clients|
      ensures ClientOk(s', d)
    {
      assert ClientOk(s, d);
    }
  }

  lemma RemoveKeepsClients(s: Sys, c: nat)
    requires Enabled(s, RemoveSelf(c)) && ClientsOk(s) && Ascending(s.q)
    ensures ClientsOk(Next(s, RemoveSelf(c)))
  {
    var s' := Next(s, RemoveSelf(c));
    WithoutKeepsOrder(s.q, s.clients[c].phase.e);
    assert ClientOk(s, c);
    forall d | 0 <= d < |s'.clients|
      ensures ClientOk(s', d)
    {
      assert ClientOk(s, d);
    }
  }

  lemma RemoveKeepsInv(s: Sys, c: nat)
    requires Enabled(s, RemoveSelf(c)) && Inv(s)
    ensures Inv(Next(s, RemoveSelf(c)))
  {
    var e := s.clients[c].phase.e;
    QueueAscends(s.log, s.q);
    RemoveKeepsOrder(s.log, s.q, s.cfg, |s.makers|, e);
    WithoutKeepsOrder(s.q, e);
    RemoveKeepsClients(s, c);
  }

  lemma SpliceKeepsInv(s: Sys)
    requires Enabled(s, Splice) && Inv(s)
    ensures Inv(Next(s, Splice))
  {
    var s' := Next(s, Splice);
    var n := BurstSize(s.q, s.drain.burst);
    DrainKeepsOrder(s.log, s.q, s.cfg, |s.makers|, s.drain.burst);
    assert s.q == s.q[..n] + s.q[n..];
    assert forall e :: e in s.q <==> e in s.q[..n] || e in s'.q;
    forall d | 0 <= d < |s'.clients|
      ensures ClientOk(s', d)
    {
      assert ClientOk(s, d);
    }
  }

  lemma NextKeepsInv(s: Sys, e: Event)
    requires Inv(s) && Enabled(s, e)
    ensures Inv(Next(s, e))
  {
    match e
    case Enter(c) => EnterKeepsInv(s, c);
    case RemoveSelf(c) => RemoveKeepsInv(s, c);
    case Splice => SpliceKeepsInv(s);
    case _ => QuietKeepsInv(s, e);
  }

  lemma {:induction false} RunKeepsInv(s: Sys, es: seq<Event>)
    requires Inv(s) && CanRun(s, es)
    ensures Inv(Run(s, es))
    decreases |es|
  {
    if es != [] {
      NextKeepsInv(s, es[0]);
      RunKeepsInv(Next(s, es[0]), es[1..]);
    }
  }

  lemma InitInv(cfg: ParkConfig, clients: nat)
    ensures Inv(Init(cfg, clients))
  {
  }

  // ----- what holds over whole runs -----

  /**
   Releases follow arrival order and close each channel at most once; the depth is bounded;
   every entry still queued has its maker waiting on it.
   */
  lemma ReleasedInOrder(cfg: ParkConfig, clients: nat, es: seq<Event>)
    requires CanRun(Init(cfg, clients), es)
    ensures var s := Run(Init(cfg, clients), es);
            && Ascending(s.closed + Batch(s.drain) + s.q)
            && |s.q| <= s.cfg.maxQueue
            && (forall e :: e in s.q ==> Waited(s, e))
  {
    InitInv(cfg, clients);
    RunKeepsInv(Init(cfg, clients), es);
  }

  /**
   parkFor says Released exactly when the drain loop took its entry, and Expired, Canceled or
   Shutdown exactly when it took the entry out itself, each for its own reason.
   */
  lemma RemovedExactlyOnce(cfg: ParkConfig, clients: nat, es: seq<Event>, c: nat)
    requires CanRun(Init(cfg, clients), es) && At(Run(Init(cfg, clients), es), c)
    requires Run(Init(cfg, clients), es).clients[c].phase.Returned?
    ensures var s := Run(Init(cfg, clients), es);
            var Returned(result, entry) := s.clients[c].phase;
            && (entry == None <==> result == Rejected)
            && (entry.Some? ==>
                  var e := entry.value;
                  && Mine(s, c, e) && e !in s.q
                  && (e in s.log <==> result == Released)
                  && (e in s.removed <==> result in {Expired, Canceled, Shutdown}))
            && (result == Expired ==> s.clients[c].held)
            && (result == Canceled ==> s.clients[c].gone)
            && (result == Shutdown ==> s.shutdown)
  {
    var s := Run(Init(cfg, clients), es);
    InitInv(cfg, clients);
    RunKeepsInv(Init(cfg, clients), es);
    assert ClientOk(s, c);
    QueueAscends(s.log, s.q);
  }

  /** Non-yielding ticks that have looked at the queue for good: found it empty, or taken a burst. */
  function Ticks(s: Sys, es: seq<Event>): (n: nat)
    requires CanRun(s, es)
    decreases |es|
  {
    if es == [] then 0
    else Ticks(Next(s, es[0]), es[1..]) + (if es[0].Splice? || (es[0].Look? && s.q == []) then 1 else 0)
  }

  /** The drain loop always bursts by the configured amount. */
  ghost predicate BurstOk(s: Sys) {
    s.drain.Ready? ==> s.drain.burst == s.cfg.drainBurst
  }

  /** A tick brings every waiter it does not release `drainBurst` places nearer the front. */
  lemma NextAdvances(s: Sys, e: Event, k: nat)
    requires Enabled(s, e) && Inv(s) && BurstOk(s) && k < |s.q|
    ensures BurstOk(Next(s, e))
    ensures var d := if e.Splice? then s.cfg.drainBurst else 0;
            s.q[k] !in Next(s, e).q || AtOrBefore(Next(s, e).q, s.q[k], k - d)
  {
    var q' := Next(s, e).q;
    QueueAscends(s.log, s.q);
    match e
    case Splice =>
      var n := BurstSize(s.q, s.drain.burst);
      if n <= k {
        assert q'[k - n] == s.q[k];
      }
    case RemoveSelf(c) =>
      if s.clients[c].phase.e == s.q[k] {
        WithoutKeepsOrder(s.q, s.q[k]);
      } else {
        WithoutAdvances(s.q, s.clients[c].phase.e, k);
      }
    case _ => assert q'[k] == s.q[k];
  }

  lemma {:induction false} GoneForGood(s: Sys, es: seq<Event>, e: nat)
    requires Inv(s) && CanRun(s, es) && e < |s.makers| && e !in s.q
    ensures e !in Run(s, es).q
    decreases |es|
  {
    if es != [] {
      NextKeepsInv(s, es[0]);
      QueueAscends(s.log, s.q);
      if es[0].RemoveSelf? {
        WithoutKeepsOrder(s.q, s.clients[es[0].c].phase.e);
      }
      GoneForGood(Next(s, es[0]), es[1..], e);
    }
  }

  lemma QueuedIsMade(s: Sys, k: nat)
    requires Orderly(s.log, s.q, s.cfg, |s.makers|) && k < |s.q|
    ensures s.q[k] < |s.makers|
  {
    assert s.q[k] == (s.log + s.q)[|s.log| + k];
  }

  lemma OneTickLess(t: nat, b: nat, d: nat)
    ensures (t - d) * b == t * b - d * b
  {
  }

  lemma EnoughTicks(t: nat, b: nat, k: nat)
    requires 1 <= b && t >= k / b + 1
    ensures t * b > k
  {
    assert k == k / b * b + k % b;
    assert t * b >= (k / b + 1) * b == k / b * b + b;
  }

  /**
   With bursts of `b >= 1`, the waiter at index `k` has left the queue after `k / b + 1`
   non-yielding ticks, whoever arrives, expires or hangs up in the meantime.
   */
  lemma {:induction false} DrainedWithinTicks(s: Sys, es: seq<Event>, k: nat)
    requires Inv(s) && BurstOk(s) && CanRun(s, es) && k < |s.q|
    requires Ticks(s, es) * s.cfg.drainBurst > k
    ensures s.q[k] !in Run(s, es).q
    decreases |es|
  {
    var e, s' := s.q[k], Next(s, es[0]);
    NextKeepsInv(s, es[0]);
    NextAdvances(s, es[0], k);
    QueuedIsMade(s, k);
    if e in s'.q {
      var d := if es[0].Splice? then 1 else 0;
      var j :| 0 <= j < |s'.q| && s'.q[j] == e && j <= k - d * s.cfg.drainBurst;
      OneTickLess(Ticks(s, es), s.cfg.drainBurst, d);
      DrainedWithinTicks(s', es[1..], j);
    } else {
      GoneForGood(s', es[1..], e);
    }
  }

  /** The same bound in the form a caller counts it. */
  lemma DrainedAfter(cfg: ParkConfig, clients: nat, before: seq<Event>, es: seq<Event>, k: nat)
    requires 1 <= cfg.drainBurst && CanRun(Init(cfg, clients), before)
    requires var s := Run(Init(cfg, clients), before);
             k < |s.q| && CanRun(s, es) && Ticks(s, es) >= k / cfg.drainBurst + 1
    ensures var s := Run(Init(cfg, clients), before);
            s.q[k] !in Run(s, es).q
  {
    var s := Run(Init(cfg, clients), before);
    InitInv(cfg, clients);
    RunKeepsInv(Init(cfg, clients), before);
    RunKeepsBurst(Init(cfg, clients), before);
    EnoughTicks(Ticks(s, es), cfg.drainBurst, k);
    DrainedWithinTicks(s, es, k);
  }

  /** A tick that splices takes the oldest entries, as many as the burst allows or as there are, and no more. */
  lemma SpliceTakesBurst(s: Sys)
    requires Enabled(s, Splice) && BurstOk(s)
    ensures var s' := Next(s, Splice);
            var n := |s'.log| - |s.log|;
            && n == (if |s.q| >= s.cfg.drainBurst then s.cfg.drainBurst else |s.q|)
            && s'.log == s.log + s.q[..n] && s'.q == s.q[n..]
            && s'.drain == (if n == 0 then Ticking else Closing(s.q[..n]))
  {
  }

  lemma StepReleases(s: Sys, e: Event)
    requires BurstOk(s) && Enabled(s, e)
    ensures BurstOk(Next(s, e)) && Next(s, e).cfg == s.cfg
    ensures |Next(s, e).log| - |s.log| <= if e.Splice? then s.cfg.drainBurst else 0
  {
    if e.Splice? {
      SpliceTakesBurst(s);
    }
  }

  lemma TicksTimes(t: nat, b: nat)
    ensures (t + 1) * b == t * b + b
  {
  }

  /** However long a run, no more entries are released than its ticks allow. */
  lemma {:induction false} BurstBounded(s: Sys, es: seq<Event>)
    requires BurstOk(s) && CanRun(s, es)
    ensures |Run(s, es).log| - |s.log| <= Ticks(s, es) * s.cfg.drainBurst
    decreases |es|
  {
    if es != [] {
      StepReleases(s, es[0]);
      BurstBounded(Next(s, es[0]), es[1..]);
      TicksTimes(Ticks(Next(s, es[0]), es[1..]), s.cfg.drainBurst);
    }
  }

  /** And while a yield is on, no tick gets started. */
  lemma NoTickInYield(s: Sys)
    requires s.drain.Ticking? && s.yielding
    ensures !Enabled(s, Probe) && !Enabled(s, Look) && !Enabled(s, Splice) && !Enabled(s, CloseOne)
  {
  }

  /** A tick that finds someone parked and no yield does release: three steps of the drain loop are all it takes. */
  lemma TickReleases(s: Sys)
    requires s.drain.Ticking? && !s.yielding && s.q != [] && s.cfg.drainBurst >= 1
    ensures Enabled(s, Probe) && Enabled(Next(s, Probe), Look) && Enabled(Next(Next(s, Probe), Look), Splice)
    ensures var s' := Next(Next(Next(s, Probe), Look), Splice);
            s'.log == s.log + s.q[..if |s.q| >= s.cfg.drainBurst then s.cfg.drainBurst else |s.q|]
  {
  }

  /** What a parked client is told at each way out, from what has happened to it. */
  lemma ParkEnds(s: Sys, e: Event)
    requires Enabled(s, e) && !NoClient(e) && !e.Splice? && Inv(s)
    ensures var p' := Next(s, e).clients[e.c].phase;
            p'.Returned? && !s.clients[e.c].phase.Returned? ==>
              match e
              case Enter(_) => p'.result == Rejected && (s.cfg.maxQueue == 0 || |s.q| == s.cfg.maxQueue)
              case Classify(c) => p'.result == (if s.clients[c].gone then Canceled else Expired)
              case RemoveSelf(c) => p'.result == (if s.clients[c].phase.e in s.log then Released else Shutdown)
              case _ => p'.result == Released
    ensures e.Enter? && Next(s, e).clients[e.c].phase.Returned? <==> e.Enter? && (s.cfg.maxQueue == 0 || |s.q| >= s.cfg.maxQueue)
  {
    QueueAscends(s.log, s.q);
    if !e.Enter? {
      assert ClientOk(s, e.c);
    }
  }

  /** What can come up for a request in parkFor. */
  datatype Cause = HoldOver | Gone | Stopping

  function CauseEvent(cause: Cause, c: nat): (e: Event) {
    match cause case HoldOver => HoldElapses(c) case Gone => HangUp(c) case Stopping => ShutDown
  }

  function CauseResult(cause: Cause): (r: ParkResult) {
    match cause case HoldOver => Expired case Gone => Canceled case Stopping => Shutdown
  }

  /** A parked request with nothing against it yet, and not released. */
  ghost predicate JustParked(s: Sys, c: nat) {
    && At(s, c) && s.clients[c].phase.Parked? && !s.clients[c].gone
    && s.clients[c].phase.e in s.q && s.clients[c].phase.e !in s.closed
  }

  lemma ShutdownEndsPark(s: Sys, c: nat)
    requires JustParked(s, c)
    ensures var es := [ShutDown, SelectShutdown(c), RemoveSelf(c)];
            && CanRun(s, es) && At(Run(s, es), c)
            && Run(s, es).clients[c].phase == Returned(Shutdown, Some(s.clients[c].phase.e))
  {
    var s1 := Next(s, ShutDown);
    var s2 := Next(s1, SelectShutdown(c));
    assert s2.clients[c].phase == Removing(s.clients[c].phase.e, true) && s2.q == s.q;
    RunThree(s, s1, s2, [ShutDown, SelectShutdown(c), RemoveSelf(c)]);
  }

  /** From a context that has fired to the entry removed and the result returned. */
  lemma FiredContextEndsPark(s: Sys, c: nat, e: nat)
    requires At(s, c) && s.clients[c].phase == CtxFired(e) && e in s.q && e !in s.closed
    ensures var es := [Recheck(c), RemoveSelf(c), Classify(c)];
            && CanRun(s, es) && At(Run(s, es), c)
            && Run(s, es).clients[c].phase == Returned(if s.clients[c].gone then Canceled else Expired, Some(e))
  {
    var s1 := Next(s, Recheck(c));
    assert s1.clients[c].phase == Removing(e, false) && s1.q == s.q;
    var s2 := Next(s1, RemoveSelf(c));
    assert s2.clients[c].phase == Removed(e) && s2.clients[c].gone == s.clients[c].gone;
    RunThree(s, s1, s2, [Recheck(c), RemoveSelf(c), Classify(c)]);
  }

  /**
   Each of the three causes alone gets a parked request out with its own result, if the drain loop
   does not get there first: what comes up, the select it wakes, and the steps after it.
   */
  lemma CauseEndsPark(s: Sys, c: nat, cause: Cause) returns (es: seq<Event>)
    requires JustParked(s, c)
    ensures CanRun(s, es) && es != [] && es[0] == CauseEvent(cause, c)
    ensures At(Run(s, es), c) && Run(s, es).clients[c].phase == Returned(CauseResult(cause), Some(s.clients[c].phase.e))
  {
    if cause.Stopping? {
      ShutdownEndsPark(s, c);
      es := [ShutDown, SelectShutdown(c), RemoveSelf(c)];
    } else {
      var e, rest := s.clients[c].phase.e, [Recheck(c), RemoveSelf(c), Classify(c)];
      var s1 := Next(s, CauseEvent(cause, c));
      var s2 := Next(s1, SelectCtx(c));
      assert s2.clients[c].phase == CtxFired(e) && s2.q == s.q && s2.closed == s.closed && s2.clients[c].gone == cause.Gone?;
      FiredContextEndsPark(s2, c, e);
      RunCons(s1, SelectCtx(c), rest);
      RunCons(s, CauseEvent(cause, c), [SelectCtx(c)] + rest);
      es := [CauseEvent(cause, c)] + ([SelectCtx(c)] + rest);
    }
  }

  lemma RunCons(s: Sys, e: Event, es: seq<Event>)
    requires Enabled(s, e) && CanRun(Next(s, e), es)
    ensures CanRun(s, [e] + es) && Run(s, [e] + es) == Run(Next(s, e), es)
  {
    var all := [e] + es;
    assert all[0] == e && all[1..] == es;
  }

  lemma RunThree(s: Sys, s1: Sys, s2: Sys, es: seq<Event>)
    requires |es| == 3 && Enabled(s, es[0]) && s1 == Next(s, es[0])
    requires Enabled(s1, es[1]) && s2 == Next(s1, es[1]) && Enabled(s2, es[2])
    ensures CanRun(s, es) && Run(s, es) == Next(s2, es[2])
  {
    RunCons(s2, es[2], []);
    RunCons(s1, es[1], [es[2]] + []);
    RunCons(s, es[0], [es[1]] + ([es[2]] + []));
    assert [es[0]] + ([es[1]] + ([es[2]] + [])) == es;
  }

  lemma {:induction false} RunKeepsBurst(s: Sys, es: seq<Event>)
    requires CanRun(s, es) && BurstOk(s)
    ensures BurstOk(Run(s, es)) && Run(s, es).cfg == s.cfg
    decreases |es|
  {
    if es != [] {
      RunKeepsBurst(Next(s, es[0]), es[1..]);
    }
  }

  lemma {:induction false} ZeroBurstReleasesNothing(s: Sys, es: seq<Event>)
    requires CanRun(s, es) && BurstOk(s) && s.cfg.drainBurst == 0 && s.log == []
    ensures Run(s, es).log == []
    decreases |es|
  {
    if es != [] {
      ZeroBurstReleasesNothing(Next(s, es[0]), es[1..]);
    }
  }

  /**
   The bound needs `drainBurst >= 1`. SetParkConfig ignores a smaller value, so a scheduler set to
   park with none keeps 0: a request does park, and whatever runs, no tick ever releases one.
   */
  lemma ParkedForGood(hold: int, maxQueue: int, drainBurst: int, clients: nat, es: seq<Event>)
    requires maxQueue >= 1 && drainBurst < 1 && clients >= 1
    requires CanRun(Init(Configure(UNCONFIGURED, hold, maxQueue, drainBurst), clients), es)
    ensures var s := Init(Configure(UNCONFIGURED, hold, maxQueue, drainBurst), clients);
            && Enabled(s, Event.Enter(0)) && Next(s, Event.Enter(0)).clients[0].phase == Parked(0)
            && Run(s, es).log == []
  {
    BurstConfigured(hold, maxQueue, drainBurst);
    ZeroBurstReleasesNothing(Init(Configure(UNCONFIGURED, hold, maxQueue, drainBurst), clients), es);
  }
}
