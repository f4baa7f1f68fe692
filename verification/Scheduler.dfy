/**
 The priority semaphore: what each mutex-held region of scheduler.go does, as a function from
 state to state over an arbitrary waiter identity.
 */
module SchedulerSpec {
  import opened Wrappers
  import opened Slices

  datatype Class = Batch | Interactive

  datatype Limits = Limits(maxInflight: int, maxWaiters: int)

  datatype Sched<W> = Sched(inflight: int, iq: seq<W>, bq: seq<W>) {
    function Queue(cls: Class): seq<W> {
      if cls == Interactive then iq else bq
    }

    function SetQueue(cls: Class, q: seq<W>): Sched<W> {
      if cls == Interactive then this.(iq := q) else this.(bq := q)
    }
  }

  datatype Admission = Granted | Full | Queued

  function Other(cls: Class): (r: Class) {
    if cls == Interactive then Batch else Interactive
  }

  /** The first locked region of Acquire, offering `w` as the channel to wait on. */
  function Admit<W>(s: Sched<W>, lim: Limits, cls: Class, w: W): (r: (Sched<W>, Admission)) {
    if s.inflight < lim.maxInflight then
      (s.(inflight := s.inflight + 1), Granted)
    else if |s.Queue(cls)| >= lim.maxWaiters then
      (s, Full)
    else
      (s.SetQueue(cls, s.Queue(cls) + [w]), Queued)
  }

  /** Release: the slot passes to the first interactive waiter, else the first batch waiter, else is freed. */
  function Release<W>(s: Sched<W>): (r: (Sched<W>, Option<W>)) {
    if s.iq != [] then (s.(iq := s.iq[1..]), Some(s.iq[0]))
    else if s.bq != [] then (s.(bq := s.bq[1..]), Some(s.bq[0]))
    else (s.(inflight := s.inflight - 1), None)
  }

  /** The locked region a cancelled Acquire runs: leave the queue if still in it. */
  function Withdraw<W(==)>(s: Sched<W>, cls: Class, w: W): (r: (Sched<W>, bool)) {
    (s.SetQueue(cls, Without(s.Queue(cls), w)), w in s.Queue(cls))
  }

  /** One class queue: numbered in arrival order, no waiter granted yet, capped. */
  ghost predicate SoundQueue(q: seq<nat>, made: nat, closed: set<nat>) {
    && Ascending(q)
    && forall k :: 0 <= k < |q| ==> q[k] < made && q[k] !in closed
  }

  /** What every locked region keeps, `made` channels existing and `closed` of them closed. */
  ghost predicate Sound(s: Sched<nat>, lim: Limits, made: nat, closed: set<nat>) {
    && 1 <= lim.maxInflight && 1 <= lim.maxWaiters
    && s.inflight <= lim.maxInflight
    && (s.iq != [] || s.bq != [] ==> s.inflight == lim.maxInflight)
    && |s.iq| <= lim.maxWaiters && |s.bq| <= lim.maxWaiters
    && SoundQueue(s.iq, made, closed) && SoundQueue(s.bq, made, closed)
    && (forall j, k :: 0 <= j < |s.iq| && 0 <= k < |s.bq| ==> s.iq[j] != s.bq[k])
    && (forall w :: w in closed ==> w < made)
  }

  lemma AdmitKeepsSound(s: Sched<nat>, lim: Limits, cls: Class, made: nat, closed: set<nat>)
    requires Sound(s, lim, made, closed)
    ensures var (s', outcome) := Admit(s, lim, cls, made);
            Sound(s', lim, if outcome == Queued then made + 1 else made, closed)
  {
  }

  /** A waiter is granted at most once: Release never closes a channel that is already closed. */
  lemma ReleaseKeepsSound(s: Sched<nat>, lim: Limits, made: nat, closed: set<nat>)
    requires Sound(s, lim, made, closed)
    ensures match Release(s)
            case (s', Some(w)) => w !in closed && Sound(s', lim, made, closed + {w})
            case (s', None) => Sound(s', lim, made, closed)
  {
  }

  lemma WithdrawKeepsSound(s: Sched<nat>, lim: Limits, cls: Class, w: nat, made: nat, closed: set<nat>)
    requires Sound(s, lim, made, closed)
    ensures Sound(Withdraw(s, cls, w).0, lim, made, closed)
  {
    var q, q' := s.Queue(cls), Without(s.Queue(cls), w);
    WithoutKeepsOrder(q, w);
    forall k | 0 <= k < |q'|
      ensures exists j :: 0 <= j < |q| && q[j] == q'[k]
    {
      assert q'[k] in q';
    }
  }
}

/** The Scheduler object itself, with its two waiter slices updated in place. */
module SchedulerImpl {
  import opened ParkImpl
  import opened Wrappers
  import opened Slices
  import opened SchedulerSpec

  /** Channels are numbered in the order `make` returns them. */
  type Chan = nat

  class Scheduler {
    var inflight: int
    var maxInflight: int
    var maxWaiters: int
    const iq: Slice<Chan>
    const bq: Slice<Chan>
    /** How many channels exist, and which of them are closed. Closing one twice would panic. */
    var made: nat
    var closed: set<Chan>
    /** The channels whose waiters withdrew before they were granted. */
    ghost var gone: set<Chan>
    /** Whether the one-place interactiveWaiting channel holds an unread ping. */
    var pinged: bool

    ghost predicate Wired()
      reads this, iq, bq, iq.buf, bq.buf
    {
      iq != bq && iq.buf != bq.buf && iq.Valid() && bq.Valid()
    }

    ghost predicate Valid()
      reads this, iq, bq, iq.buf, bq.buf
    {
      Wired() && Sound(View(), Lim(), made, closed) && Settled(View(), made, closed, gone)
    }

    /** Every channel made is still queued, granted, or withdrawn. */
    static ghost predicate Settled(s: Sched<Chan>, made: nat, closed: set<Chan>, gone: set<Chan>) {
      forall w :: 0 <= w < made ==> w in s.iq || w in s.bq || w in closed || w in gone
    }

    ghost function View(): Sched<Chan>
      reads this, iq, bq
    {
      Sched(inflight, iq.Contents, bq.Contents)
    }

    ghost function Lim(): Limits
      reads this
    {
      Limits(maxInflight, maxWaiters)
    }

    ghost function Footprint(): set<object>
      reads this, iq, bq
    {
      {this, iq, bq, iq.buf, bq.buf}
    }

    /** New, with the defaults overridden by SetMaxInflight and SetMaxWaiters (values < 1 ignored). */
    constructor (inflightLimit: int, waiterLimit: int)
      ensures Valid() && View() == Sched(0, [], []) && closed == {} && !pinged
      ensures Lim() == Limits(if inflightLimit < 1 then 1 else inflightLimit, if waiterLimit < 1 then 256 else waiterLimit)
      ensures fresh(Footprint())
    {
      inflight := 0;
      maxInflight := if inflightLimit < 1 then 1 else inflightLimit;
      maxWaiters := if waiterLimit < 1 then 256 else waiterLimit;
      iq := new Slice();
      bq := new Slice();
      made, closed, gone, pinged := 0, {}, {}, false;
    }

    /** Acquire up to the point where it either returns or blocks on the channel `w`. */
    method TryAcquire(cls: Class) returns (outcome: Admission, w: Chan)
      requires Valid()
      modifies Footprint()
      ensures Valid() && Lim() == old(Lim())
      ensures (iq.buf == old(iq.buf) || fresh(iq.buf)) && (bq.buf == old(bq.buf) || fresh(bq.buf))
      ensures (View(), outcome) == Admit(old(View()), Lim(), cls, w)
      ensures outcome == Granted <==> old(inflight) < maxInflight
      ensures outcome == Full <==> old(inflight) >= maxInflight && |old(View()).Queue(cls)| >= maxWaiters
      ensures inflight == old(inflight) + (if outcome == Granted then 1 else 0)
      ensures View().Queue(cls) == old(View()).Queue(cls) + (if outcome == Queued then [w] else [])
      ensures View().Queue(Other(cls)) == old(View()).Queue(Other(cls))
      ensures w == old(made) && made == (if outcome == Queued then w + 1 else w) && closed == old(closed) && gone == old(gone)
      ensures pinged == (old(pinged) || (outcome == Queued && cls == Interactive))
    {
      w := made;
      if inflight < maxInflight {
        AdmitKeepsSound(View(), Lim(), cls, made, closed);
        inflight := inflight + 1;
        outcome := Granted;
      } else if (if cls == Interactive then iq.len else bq.len) >= maxWaiters {
        outcome := Full;
      } else {
        w := Wait(cls);
        outcome := Queued;
      }
    }

    /** A new channel joins the queue of its class, and an interactive one is announced. */
    method Wait(cls: Class) returns (w: Chan)
      requires Valid() && inflight >= maxInflight && |View().Queue(cls)| < maxWaiters
      modifies this`made, this`pinged, iq, bq, iq.buf, bq.buf
      ensures Valid()
      ensures (iq.buf == old(iq.buf) || fresh(iq.buf)) && (bq.buf == old(bq.buf) || fresh(bq.buf))
      ensures w == old(made) && made == w + 1 && pinged == (old(pinged) || cls == Interactive)
      ensures View() == old(View().SetQueue(cls, View().Queue(cls) + [made]))
    {
      AdmitKeepsSound(View(), Lim(), cls, made, closed);
      w, made := made, made + 1;
      Enqueue(cls, w);
      pinged := pinged || cls == Interactive;
    }

    method Enqueue(cls: Class, w: Chan)
      requires Wired()
      modifies iq, bq, iq.buf, bq.buf
      ensures Wired()
      ensures (iq.buf == old(iq.buf) || fresh(iq.buf)) && (bq.buf == old(bq.buf) || fresh(bq.buf))
      ensures View() == old(View().SetQueue(cls, View().Queue(cls) + [w]))
    {
      if cls == Interactive {
        iq.Append(w);
      } else {
        bq.Append(w);
      }
    }

    /**
     The locked region after `ctx.Done()`: true when the waiter left its queue, and false, for a
     waiter that has not withdrawn before, exactly when its channel has been closed.
     */
    method CancelWait(cls: Class, w: Chan) returns (removed: bool)
      requires Valid()
      modifies Footprint()
      ensures Valid() && Lim() == old(Lim()) && Footprint() == old(Footprint())
      ensures made == old(made) && closed == old(closed) && pinged == old(pinged)
      ensures (View(), removed) == Withdraw(old(View()), cls, w)
      ensures gone == old(gone) + (if removed then {w} else {})
      ensures w < made && w !in old(gone) && w !in old(View().Queue(Other(cls))) ==> (removed <==> w !in closed)
    {
      WithdrawKeepsSound(View(), Lim(), cls, w, made, closed);
      WithdrawKeepsSettled(View(), cls, w, made, closed, gone);
      removed := RemoveWaiter(cls, w);
      if removed {
        gone := gone + {w};
      }
    }

    method RemoveWaiter(cls: Class, w: Chan) returns (removed: bool)
      requires Wired()
      modifies iq, bq, iq.buf, bq.buf
      ensures Wired() && Footprint() == old(Footprint())
      ensures (View(), removed) == Withdraw(old(View()), cls, w)
    {
      if cls == Interactive {
        removed := iq.Remove(w);
      } else {
        removed := bq.Remove(w);
      }
    }

    static lemma WithdrawKeepsSettled(s: Sched<Chan>, cls: Class, w: Chan, made: nat, closed: set<Chan>, gone: set<Chan>)
      requires Settled(s, made, closed, gone) && SoundQueue(s.Queue(cls), made, closed)
      ensures var (s', removed) := Withdraw(s, cls, w);
              Settled(s', made, closed, gone + (if removed then {w} else {}))
      ensures w < made && w !in gone && w !in s.Queue(Other(cls)) ==> (Withdraw(s, cls, w).1 <==> w !in closed)
    {
      WithoutKeepsOrder(s.Queue(cls), w);
    }

    /** Closes the channel of the waiter the slot passes to, or frees the slot. */
    method ReleaseSlot()
      requires Valid()
      modifies Footprint()
      ensures Valid() && Lim() == old(Lim()) && Footprint() == old(Footprint())
      ensures made == old(made) && pinged == old(pinged) && gone == old(gone)
      ensures View() == Release(old(View())).0
      ensures iq.Contents == (if old(iq.Contents) != [] then old(iq.Contents)[1..] else [])
      ensures bq.Contents == (if old(iq.Contents) == [] && old(bq.Contents) != [] then old(bq.Contents)[1..] else old(bq.Contents))
      ensures inflight == old(inflight) - (if old(iq.Contents) == [] && old(bq.Contents) == [] then 1 else 0)
      ensures closed == match Release(old(View())).1
                        case Some(w) => old(closed) + {w}
                        case None => old(closed)
    {
      ReleaseKeepsSound(View(), Lim(), made, closed);
      var w := Dequeue();
      match w
      case Some(c) =>
        closed := closed + {c};
      case None =>
        inflight := inflight - 1;
    }

    /** The oldest interactive waiter, else the oldest batch waiter. */
    method Dequeue() returns (w: Option<Chan>)
      requires Wired()
      modifies iq, bq, iq.buf, bq.buf
      ensures Wired() && Footprint() == old(Footprint())
      ensures w == Release(old(View())).1
      ensures View().iq == Release(old(View())).0.iq && View().bq == Release(old(View())).0.bq
    {
      w := iq.PopFront();
      if w == None {
        w := bq.PopFront();
      }
    }

    /** The Stats snapshot, which also looks at the park queue of the same scheduler. */
    method Stats(park: Parker) returns (busy: bool, slots: int, maxSlots: int, interactive: nat, batch: nat, parked: nat)
      requires Valid() && park.Valid()
      ensures busy <==> inflight > 0
      ensures slots == inflight && maxSlots == maxInflight && (busy ==> 1 <= slots <= maxSlots)
      ensures interactive == |View().iq| && batch == |View().bq| && parked == |park.q.Contents| <= park.maxQueue
      ensures interactive + batch > 0 ==> slots == maxSlots
    {
      return inflight > 0, inflight, maxInflight, iq.len, bq.len, park.q.len;
    }
  }
}
