/**
 Any number of clients racing for slots. A step is one mutex-held region of the scheduler, or
 one choice a blocked Acquire makes in its select statement: the grant and the cancellation
 may both be ready, and between choosing the cancellation and taking the lock again a grant
 may still arrive.
 */
module SchedulerRaces {
  import opened Wrappers
  import opened Slices
  import opened SchedulerSpec

  /** Where a client stands in its current Acquire/Release pair. */
  datatype Phase =
    | Idle
    | Waiting(cls: Class, w: nat)    // in select, on channel w
    | Canceling(cls: Class, w: nat)  // chose ctx.Done(), not yet holding the lock
    | HandingOn                      // was granted all the same, about to call Release
    | Holding                        // Acquire returned nil
  {
    predicate On(c: Class, ch: nat) {
      (Waiting? || Canceling?) && cls == c && w == ch
    }
  }

  /** Who made a channel, and to wait in which class. */
  datatype Info = Info(client: nat, cls: Class)

  datatype Sys = Sys(core: Sched<nat>, lim: Limits, phases: seq<Phase>, chans: seq<Info>, closed: set<nat>) {
    /** A granted waiter owns its slot from the moment its channel is closed. */
    predicate Owns(c: nat)
      requires c < |phases|
    {
      match phases[c]
      case Idle => false
      case Waiting(_, w) => w in closed
      case Canceling(_, w) => w in closed
      case HandingOn => true
      case Holding => true
    }

    function Owners(): set<nat> {
      set c | 0 <= c < |phases| && Owns(c)
    }
  }

  datatype Event =
    | Acquire(c: nat, cls: Class)
    | Wake(c: nat)
    | CtxDone(c: nat)
    | Withdrawal(c: nat)
    | Free(c: nat)

  predicate Enabled(s: Sys, e: Event) {
    && e.c < |s.phases|
    && match e
       case Acquire(c, _) => s.phases[c].Idle?
       case Wake(c) => s.phases[c].Waiting? && s.phases[c].w in s.closed
       case CtxDone(c) => s.phases[c].Waiting?
       case Withdrawal(c) => s.phases[c].Canceling?
       case Free(c) => s.phases[c].Holding? || s.phases[c].HandingOn?
  }

  function Next(s: Sys, e: Event): (s': Sys)
    requires Enabled(s, e)
  {
    match e
    case Acquire(c, cls) =>
      var w := |s.chans|;
      var (core', outcome) := Admit(s.core, s.lim, cls, w);
      (match outcome
       case Granted => s.(core := core', phases := s.phases[c := Holding])
       case Full => s
       case Queued => s.(core := core', phases := s.phases[c := Waiting(cls, w)], chans := s.chans + [Info(c, cls)]))
    case Wake(c) =>
      s.(phases := s.phases[c := Holding])
    case CtxDone(c) =>
      s.(phases := s.phases[c := Canceling(s.phases[c].cls, s.phases[c].w)])
    case Withdrawal(c) =>
      var (core', removed) := Withdraw(s.core, s.phases[c].cls, s.phases[c].w);
      s.(core := core', phases := s.phases[c := if removed then Idle else HandingOn])
    case Free(c) =>
      var (core', granted) := Release(s.core);
      s.(core := core', phases := s.phases[c := Idle],
         closed := if granted.Some? then s.closed + {granted.value} else s.closed)
  }

  predicate CanRun(s: Sys, es: seq<Event>)
    decreases |es|
  {
    es == [] || (Enabled(s, es[0]) && CanRun(Next(s, es[0]), es[1..]))
  }

  function Run(s: Sys, es: seq<Event>): (s': Sys)
    requires CanRun(s, es)
    decreases |es|
  {
    if es == [] then s else Run(Next(s, es[0]), es[1..])
  }

  function Init(lim: Limits, clients: nat): (s: Sys) {
    Sys(Sched(0, [], []), lim, seq(clients, _ => Idle), [], {})
  }

  // ----- the invariant -----

  /** Channel `w` is one its maker, of class `cls`, still waits on. */
  predicate Pending(s: Sys, cls: Class, w: nat) {
    && w < |s.chans| && s.chans[w].cls == cls && s.chans[w].client < |s.phases|
    && s.phases[s.chans[w].client].On(cls, w)
  }

  ghost predicate Backed(s: Sys) {
    && (forall w :: w in s.core.iq ==> Pending(s, Interactive, w))
    && (forall w :: w in s.core.bq ==> Pending(s, Batch, w))
  }

  /** A waiting client made its channel, which is either queued or already granted. */
  predicate TrackedAt(s: Sys, c: nat)
    requires c < |s.phases|
  {
    var p := s.phases[c];
    p.Waiting? || p.Canceling? ==>
      && p.w < |s.chans| && s.chans[p.w] == Info(c, p.cls)
      && (p.w in s.closed || p.w in s.core.Queue(p.cls))
  }

  ghost predicate Tracked(s: Sys) {
    forall c :: 0 <= c < |s.phases| ==> TrackedAt(s, c)
  }

  ghost predicate Inv(s: Sys) {
    && Sound(s.core, s.lim, |s.chans|, s.closed)
    && Backed(s) && Tracked(s)
    && s.core.inflight == |s.Owners()|
  }

  lemma InitInv(lim: Limits, clients: nat)
    requires 1 <= lim.maxInflight && 1 <= lim.maxWaiters
    ensures Inv(Init(lim, clients))
  {
    assert Init(lim, clients).Owners() == {};
  }

  ghost predicate Made(s: Sys) {
    forall w :: w in s.closed ==> w < |s.chans|
  }

  lemma SelectKeepsInv(s: Sys, e: Event)
    requires Made(s) && Backed(s) && Tracked(s) && Enabled(s, e) && (e.Wake? || e.CtxDone?)
    requires e.Wake? ==> s.phases[e.c].w !in s.core.iq && s.phases[e.c].w !in s.core.bq
    ensures Backed(Next(s, e)) && Tracked(Next(s, e)) && Next(s, e).Owners() == s.Owners()
  {
    var s' := Next(s, e);
    forall d | 0 <= d < |s'.phases|
      ensures TrackedAt(s', d)
    {
      assert TrackedAt(s, d);
    }
  }

  lemma AcquireKeepsTracks(s: Sys, c: nat, cls: Class)
    requires Backed(s) && Tracked(s) && Enabled(s, Acquire(c, cls))
    ensures Backed(Next(s, Acquire(c, cls))) && Tracked(Next(s, Acquire(c, cls)))
  {
    var s' := Next(s, Acquire(c, cls));
    forall d | 0 <= d < |s'.phases|
      ensures TrackedAt(s', d)
    {
      assert TrackedAt(s, d);
    }
  }

  lemma AcquireKeepsCount(s: Sys, c: nat, cls: Class)
    requires Made(s) && Enabled(s, Acquire(c, cls)) && s.core.inflight == |s.Owners()|
    ensures Next(s, Acquire(c, cls)).core.inflight == |Next(s, Acquire(c, cls)).Owners()|
  {
    var s' := Next(s, Acquire(c, cls));
    assert !s.Owns(c);
    assert forall d :: 0 <= d < |s.phases| && d != c ==> (s'.Owns(d) <==> s.Owns(d));
    if Admit(s.core, s.lim, cls, |s.chans|).1 == Granted {
      assert s'.Owners() == s.Owners() + {c};
    } else {
      assert s'.Owners() == s.Owners();
    }
  }

  lemma WithdrawalKeepsTracks(s: Sys, c: nat)
    requires Backed(s) && Tracked(s) && Enabled(s, Withdrawal(c))
    requires Ascending(s.core.Queue(s.phases[c].cls))
    ensures Backed(Next(s, Withdrawal(c))) && Tracked(Next(s, Withdrawal(c)))
  {
    var s' := Next(s, Withdrawal(c));
    WithoutKeepsOrder(s.core.Queue(s.phases[c].cls), s.phases[c].w);
    assert TrackedAt(s, c);
    forall d | 0 <= d < |s'.phases|
      ensures TrackedAt(s', d)
    {
      assert TrackedAt(s, d);
    }
  }

  lemma WithdrawalKeepsCount(s: Sys, c: nat)
    requires Tracked(s) && Enabled(s, Withdrawal(c))
    requires s.phases[c].w in s.core.Queue(s.phases[c].cls) ==> s.phases[c].w !in s.closed
    ensures Next(s, Withdrawal(c)).Owners() == s.Owners()
  {
    assert TrackedAt(s, c);
  }

  lemma FreeKeepsTracks(s: Sys, c: nat)
    requires Backed(s) && Tracked(s) && Enabled(s, Free(c))
    ensures Backed(Next(s, Free(c))) && Tracked(Next(s, Free(c)))
  {
    var s' := Next(s, Free(c));
    assert forall w :: w in s'.core.iq ==> w in s.core.iq;
    assert forall w :: w in s'.core.bq ==> w in s.core.bq;
    forall d | 0 <= d < |s'.phases|
      ensures TrackedAt(s', d)
    {
      assert TrackedAt(s, d);
    }
  }

  /** The slot of the releasing client goes to the maker of the granted channel, and to no one else. */
  lemma FreeMovesOwnership(s: Sys, c: nat)
    requires Backed(s) && Tracked(s) && Enabled(s, Free(c))
    requires forall w :: w in s.core.iq || w in s.core.bq ==> w !in s.closed
    ensures match Release(s.core).1
            case None => Next(s, Free(c)).Owners() == s.Owners() - {c}
            case Some(w) =>
              && w < |s.chans| && s.chans[w].client < |s.phases|
              && s.chans[w].client != c && s.chans[w].client !in s.Owners()
              && Next(s, Free(c)).Owners() == s.Owners() - {c} + {s.chans[w].client}
  {
    var s' := Next(s, Free(c));
    match Release(s.core).1
    case None =>
    case Some(w) =>
      assert w in s.core.iq || w in s.core.bq;
      assert Pending(s, s.chans[w].cls, w);
      forall d | 0 <= d < |s.phases| && d != c
        ensures s'.Owns(d) <==> s.Owns(d) || d == s.chans[w].client
      {
        assert TrackedAt(s, d);
      }
  }

  lemma QueuedIsOpen(s: Sys)
    requires Inv(s)
    ensures Made(s)
    ensures forall w :: w in s.core.iq || w in s.core.bq ==> w !in s.closed
  {
  }

  lemma AcquireKeepsInv(s: Sys, c: nat, cls: Class)
    requires Inv(s) && Enabled(s, Acquire(c, cls))
    ensures Inv(Next(s, Acquire(c, cls)))
  {
    AdmitKeepsSound(s.core, s.lim, cls, |s.chans|, s.closed);
    AcquireKeepsTracks(s, c, cls);
    AcquireKeepsCount(s, c, cls);
  }

  lemma NextKeepsInv(s: Sys, e: Event)
    requires Inv(s) && Enabled(s, e)
    ensures Inv(Next(s, e))
  {
    QueuedIsOpen(s);
    match e
    case Acquire(c, cls) => AcquireKeepsInv(s, c, cls);
    case Withdrawal(c) =>
      WithdrawKeepsSound(s.core, s.lim, s.phases[c].cls, s.phases[c].w, |s.chans|, s.closed);
      WithdrawalKeepsTracks(s, c);
      WithdrawalKeepsCount(s, c);
    case Free(c) =>
      ReleaseKeepsSound(s.core, s.lim, |s.chans|, s.closed);
      FreeKeepsTracks(s, c);
      FreeMovesOwnership(s, c);
    case Wake(_) => SelectKeepsInv(s, e);
    case CtxDone(_) => SelectKeepsInv(s, e);
  }

  lemma {:induction false} RunKeepsInv(s: Sys, es: seq<Event>)
    requires Inv(s) && CanRun(s, es)
    ensures Inv(Run(s, es))
    decreases |es|
  {
    if es != [] {
      NextKeepsInv(s, es[0]);
      RunKeepsInv(Next(s, es[0]), es[1..]);
    }
  }

  // ----- what holds over whole runs -----

  /**
   What an Acquire comes to at once, told from who owns slots and who waits: it is granted iff
   some slot is free, refused iff none is and the queue of its class is full, and otherwise waits,
   last in the queue of its own class.
   */
  lemma AcquireDecides(s: Sys, c: nat, cls: Class)
    requires Inv(s) && Enabled(s, Acquire(c, cls))
    ensures var s' := Next(s, Acquire(c, cls));
            var full := |s.core.Queue(cls)| >= s.lim.maxWaiters;
            && (s'.phases[c].Holding? <==> |s.Owners()| < s.lim.maxInflight)
            && (s'.phases[c].Idle? <==> |s.Owners()| == s.lim.maxInflight && full)
            && (s'.phases[c].Waiting? <==> |s.Owners()| == s.lim.maxInflight && !full)
            && (if s'.phases[c].Waiting?
                then s'.phases[c] == Waiting(cls, |s.chans|) && s'.core.Queue(cls) == s.core.Queue(cls) + [|s.chans|]
                else s'.core.Queue(cls) == s.core.Queue(cls))
            && s'.core.Queue(Other(cls)) == s.core.Queue(Other(cls))
            && |s'.Owners()| == |s.Owners()| + (if s'.phases[c].Holding? then 1 else 0)
  {
    AcquireKeepsInv(s, c, cls);
  }

  /** A waiting client comes to hold a slot iff it was granted one and takes it; having chosen to give up, it hands it on. */
  lemma WaitEnds(s: Sys, e: Event)
    requires Inv(s) && Enabled(s, e) && (s.phases[e.c].Waiting? || s.phases[e.c].Canceling?)
    ensures var p, p' := s.phases[e.c], Next(s, e).phases[e.c];
            && (e.Wake? ==> p'.Holding?)
            && (e.CtxDone? ==> p' == Canceling(p.cls, p.w))
            && (e.Withdrawal? ==> if p.w in s.closed then p'.HandingOn? else p'.Idle?)
  {
    QueuedIsOpen(s);
    assert TrackedAt(s, e.c);
  }

  /** Giving a slot up makes its owner idle, and the front waiter of the first class that has one its next owner. */
  lemma FreeServesFront(s: Sys, c: nat)
    requires Inv(s) && Enabled(s, Free(c))
    ensures var s' := Next(s, Free(c));
            && s'.phases == s.phases[c := Idle]
            && s'.closed == s.closed + (if s.core.iq != [] then {s.core.iq[0]} else if s.core.bq != [] then {s.core.bq[0]} else {})
            && s'.core.iq == (if s.core.iq != [] then s.core.iq[1..] else [])
            && s'.core.bq == (if s.core.iq == [] && s.core.bq != [] then s.core.bq[1..] else s.core.bq)
  {
  }

  /** Slots are conserved, never oversubscribed, and never idle while someone waits. */
  lemma SlotsConserved(lim: Limits, clients: nat, es: seq<Event>)
    requires 1 <= lim.maxInflight && 1 <= lim.maxWaiters && CanRun(Init(lim, clients), es)
    ensures var s := Run(Init(lim, clients), es);
            && s.core.inflight == |s.Owners()| <= s.lim.maxInflight
            && (s.core.iq != [] || s.core.bq != [] ==> s.core.inflight == s.lim.maxInflight)
            && |s.core.iq| <= s.lim.maxWaiters && |s.core.bq| <= s.lim.maxWaiters
  {
    InitInv(lim, clients);
    RunKeepsInv(Init(lim, clients), es);
  }

  /** Whenever Release closes a channel, that channel is still open. */
  lemma NoDoubleClose(lim: Limits, clients: nat, es: seq<Event>, c: nat)
    requires 1 <= lim.maxInflight && 1 <= lim.maxWaiters && CanRun(Init(lim, clients), es)
    requires Enabled(Run(Init(lim, clients), es), Free(c))
    ensures var s := Run(Init(lim, clients), es);
            var granted := Release(s.core).1;
            granted.Some? ==> granted.value < |s.chans| && granted.value !in s.closed
  {
    var s := Run(Init(lim, clients), es);
    InitInv(lim, clients);
    RunKeepsInv(Init(lim, clients), es);
    ReleaseKeepsSound(s.core, s.lim, |s.chans|, s.closed);
  }

  /** Once every client has left Acquire and released, all slots are free again, whatever raced before. */
  lemma NoSlotLeak(lim: Limits, clients: nat, es: seq<Event>)
    requires 1 <= lim.maxInflight && 1 <= lim.maxWaiters && CanRun(Init(lim, clients), es)
    requires forall c :: 0 <= c < |Run(Init(lim, clients), es).phases| ==> Run(Init(lim, clients), es).phases[c].Idle?
    ensures Run(Init(lim, clients), es).core == Sched(0, [], [])
  {
    var s := Run(Init(lim, clients), es);
    InitInv(lim, clients);
    RunKeepsInv(Init(lim, clients), es);
    assert s.Owners() == {};
  }

  /** Hand-offs made while the other class leaves the front of `cls` exposed. */
  function Handoffs(s: Sys, es: seq<Event>, cls: Class): (n: nat)
    requires CanRun(s, es)
    decreases |es|
  {
    if es == [] then 0
    else Handoffs(Next(s, es[0]), es[1..], cls)
         + (if es[0].Free? && (cls == Interactive || s.core.iq == []) then 1 else 0)
  }

  /** A channel that has left its queue, or never entered it, does not come back. */
  lemma GoneStaysGone(s: Sys, e: Event, cls: Class, w: nat)
    requires Enabled(s, e) && w < |s.chans| && w !in s.core.Queue(cls)
    requires Ascending(s.core.Queue(cls))
    ensures w < |Next(s, e).chans| && w !in Next(s, e).core.Queue(cls)
  {
    if e.Withdrawal? && s.phases[e.c].cls == cls {
      WithoutKeepsOrder(s.core.Queue(cls), s.phases[e.c].w);
    }
  }

  /** One step never puts anyone in front of a waiter, and a hand-off to its class moves it up. */
  lemma NextAdvances(s: Sys, e: Event, cls: Class, k: nat)
    requires Inv(s) && Enabled(s, e) && k < |s.core.Queue(cls)|
    ensures var w := s.core.Queue(cls)[k];
            var d := if e.Free? && (cls == Interactive || s.core.iq == []) then 1 else 0;
            w !in Next(s, e).core.Queue(cls) || AtOrBefore(Next(s, e).core.Queue(cls), w, k - d)
  {
    var w, q' := s.core.Queue(cls)[k], Next(s, e).core.Queue(cls);
    match e
    case Free(_) =>
      if cls == Interactive || s.core.iq == [] {
        assert q' == s.core.Queue(cls)[1..];
        assert k > 0 ==> q'[k - 1] == w;
      } else {
        assert q'[k] == w;
      }
    case Withdrawal(c) =>
      if s.phases[c].cls == cls && s.phases[c].w != w {
        WithoutAdvances(s.core.Queue(cls), s.phases[c].w, k);
      } else if s.phases[c].cls == cls {
        WithoutKeepsOrder(s.core.Queue(cls), w);
      } else {
        assert q'[k] == w;
      }
    case Acquire(_, _) => assert q'[k] == w;
    case Wake(_) => assert q'[k] == w;
    case CtxDone(_) => assert q'[k] == w;
  }

  lemma {:induction false} GoneForGood(s: Sys, es: seq<Event>, cls: Class, w: nat)
    requires Inv(s) && CanRun(s, es) && w < |s.chans| && w !in s.core.Queue(cls)
    ensures w !in Run(s, es).core.Queue(cls)
    decreases |es|
  {
    if es != [] {
      NextKeepsInv(s, es[0]);
      GoneStaysGone(s, es[0], cls, w);
      GoneForGood(Next(s, es[0]), es[1..], cls, w);
    }
  }

  /**
   The waiter at index `k` has left its queue after `k + 1` hand-offs, whoever arrives in the
   meantime; a batch waiter only counts those made while no interactive request waits.
   */
  lemma {:induction false} BoundedOvertaking(s: Sys, es: seq<Event>, cls: Class, k: nat)
    requires Inv(s) && CanRun(s, es) && k < |s.core.Queue(cls)|
    requires Handoffs(s, es, cls) >= k + 1
    ensures s.core.Queue(cls)[k] !in Run(s, es).core.Queue(cls)
    decreases |es|
  {
    var w := s.core.Queue(cls)[k];
    var s' := Next(s, es[0]);
    assert w < |s.chans| <= |s'.chans|;
    NextKeepsInv(s, es[0]);
    NextAdvances(s, es[0], cls, k);
    if w in s'.core.Queue(cls) {
      var j :| 0 <= j < |s'.core.Queue(cls)| && s'.core.Queue(cls)[j] == w
               && j <= k - (if es[0].Free? && (cls == Interactive || s.core.iq == []) then 1 else 0);
      BoundedOvertaking(s', es[1..], cls, j);
    } else {
      GoneForGood(s', es[1..], cls, w);
    }
  }
}
