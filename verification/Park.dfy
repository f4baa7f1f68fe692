/** The bounded FIFO park queue: its locked regions as functions over entry numbers. */
module ParkSpec {
  import opened Wrappers
  import opened Slices

  datatype ParkResult = Released | Expired | Rejected | Canceled | Shutdown

  datatype ParkConfig = ParkConfig(hold: int, maxQueue: nat, drainBurst: nat)

  /** Parking is off in a scheduler that never calls SetParkConfig. */
  const UNCONFIGURED := ParkConfig(0, 0, 0)

  /** SetParkConfig: 0 disables parking, out-of-range values keep what was there. */
  function Configure(cfg: ParkConfig, hold: int, maxQueue: int, drainBurst: int): (r: ParkConfig) {
    ParkConfig(if hold > 0 then hold else cfg.hold,
               if maxQueue < 0 then cfg.maxQueue else maxQueue,
               if drainBurst >= 1 then drainBurst else cfg.drainBurst)
  }

  /** The locked region of parkFor: None when the request is rejected. */
  function Enter(q: seq<nat>, cfg: ParkConfig, e: nat): (r: Option<seq<nat>>) {
    if cfg.maxQueue == 0 || |q| >= cfg.maxQueue then None else Some(q + [e])
  }

  /** How many entries one burst takes. */
  function BurstSize(q: seq<nat>, burst: nat): (n: nat)
    ensures n <= |q|
  {
    if burst > |q| then |q| else burst
  }

  /**
   Entries are numbered on arrival. Those released so far, then those still queued, are in
   arrival order, and the depth is bounded.
   */
  ghost predicate Orderly(released: seq<nat>, q: seq<nat>, cfg: ParkConfig, made: nat) {
    && Ascending(released + q)
    && (forall k :: 0 <= k < |released + q| ==> (released + q)[k] < made)
    && |q| <= cfg.maxQueue
  }

  lemma EnterKeepsOrder(released: seq<nat>, q: seq<nat>, cfg: ParkConfig, made: nat)
    requires Orderly(released, q, cfg, made)
    ensures match Enter(q, cfg, made)
            case Some(q') => Orderly(released, q', cfg, made + 1)
            case None => |q| == cfg.maxQueue
  {
    assert released + (q + [made]) == released + q + [made];
  }

  lemma DrainKeepsOrder(released: seq<nat>, q: seq<nat>, cfg: ParkConfig, made: nat, burst: nat)
    requires Orderly(released, q, cfg, made)
    ensures var n := BurstSize(q, burst); Orderly(released + q[..n], q[n..], cfg, made)
  {
    var n := BurstSize(q, burst);
    assert released + q[..n] + q[n..] == released + q;
  }

  lemma RemoveKeepsOrder(released: seq<nat>, q: seq<nat>, cfg: ParkConfig, made: nat, e: nat)
    requires Orderly(released, q, cfg, made)
    ensures Orderly(released, Without(q, e), cfg, made)
  {
    QueueAscends(released, q);
    WithoutKeepsOrder(q, e);
    if e in q {
      WithoutInTail(released, q, e);
      WithoutKeepsOrder(released + q, e);
      var now := Without(released + q, e);
      assert forall k :: 0 <= k < |now| ==> now[k] in now;
    } else {
      WithoutAbsent(q, e);
    }
  }

  /** Configured once, a scheduler that parks at all has a burst of 0 iff it was given none of at least 1. */
  lemma BurstConfigured(hold: int, maxQueue: int, drainBurst: int)
    ensures var cfg := Configure(UNCONFIGURED, hold, maxQueue, drainBurst);
            && (cfg.maxQueue >= 1 <==> maxQueue >= 1)
            && (cfg.drainBurst == 0 <==> drainBurst < 1)
  {
  }

  lemma {:induction false} WithoutInTail(released: seq<nat>, q: seq<nat>, e: nat)
    requires e !in released
    ensures released + Without(q, e) == Without(released + q, e)
  {
    if released == [] {
      assert released + q == q;
    } else {
      assert (released + q)[1..] == released[1..] + q;
      WithoutInTail(released[1..], q, e);
    }
  }

  lemma QueueAscends(released: seq<nat>, q: seq<nat>)
    requires Ascending(released + q)
    ensures Ascending(released) && Ascending(q)
    ensures forall e :: e in released ==> e !in q
  {
    var all := released + q;
    assert forall k :: 0 <= k < |released| ==> all[k] == released[k];
    assert forall k :: 0 <= k < |q| ==> all[|released| + k] == q[k];
  }
}

/** The parker object, its queue updated in place. */
module ParkImpl {
  import opened Wrappers
  import opened Slices
  import opened ParkSpec

  class Parker {
    const q: Slice<nat>
    var hold: int
    var maxQueue: nat
    var drainBurst: nat
    /** How many parkedReq values exist, and which release channels are closed, in closing order. */
    var made: nat
    var released: seq<nat>

    ghost predicate Valid()
      reads this, q, q.buf
    {
      q.Valid() && Orderly(released, q.Contents, Config(), made)
    }

    ghost function Config(): ParkConfig
      reads this
    {
      ParkConfig(hold, maxQueue, drainBurst)
    }

    ghost function Footprint(): set<object>
      reads this, q
    {
      {this, q, q.buf}
    }

    constructor ()
      ensures Valid() && Config() == UNCONFIGURED && q.Contents == [] && released == []
      ensures fresh(Footprint() - {this})
    {
      q := new Slice();
      hold, maxQueue, drainBurst, made, released := 0, 0, 0, 0, [];
    }

    /** Called before serving traffic, so the queue is empty. */
    method SetParkConfig(newHold: int, newMaxQueue: int, newDrainBurst: int)
      requires Valid() && q.Contents == []
      modifies this
      ensures Valid() && q.Contents == old(q.Contents) && released == old(released)
      ensures Config() == Configure(old(Config()), newHold, newMaxQueue, newDrainBurst)
      ensures maxQueue == if newMaxQueue >= 0 then newMaxQueue else old(maxQueue)
      ensures drainBurst == if newDrainBurst >= 1 then newDrainBurst else old(drainBurst)
      ensures hold == if newHold > 0 then newHold else old(hold)
    {
      if newMaxQueue == 0 {
        maxQueue := 0;
      } else if newMaxQueue > 0 {
        maxQueue := newMaxQueue;
      }
      if newDrainBurst >= 1 {
        drainBurst := newDrainBurst;
      }
      if newHold > 0 {
        hold := newHold;
      }
    }

    /** The ceiling check and the append of parkFor, in one locked region. */
    method EnterQueue() returns (entry: Option<nat>)
      requires Valid()
      modifies Footprint()
      ensures Valid() && Config() == old(Config()) && released == old(released) && fresh(Footprint() - old(Footprint()))
      ensures match Enter(old(q.Contents), Config(), old(made))
              case Some(q') => entry == Some(old(made)) && q.Contents == q' && made == old(made) + 1
              case None => entry == None && q.Contents == old(q.Contents) && made == old(made)
      ensures entry == None <==> maxQueue == 0 || |old(q.Contents)| >= maxQueue
      ensures entry.Some? ==> q.Contents == old(q.Contents) + [entry.value]
    {
      EnterKeepsOrder(released, q.Contents, Config(), made);
      if maxQueue == 0 || q.len >= maxQueue {
        return None;
      }
      entry := Some(made);
      q.Append(made);
      made := made + 1;
    }

    /** False when a concurrent drain has already released the entry. */
    method Remove(e: nat) returns (found: bool)
      requires Valid()
      modifies Footprint()
      ensures Valid() && Config() == old(Config()) && released == old(released) && made == old(made)
      ensures Footprint() == old(Footprint())
      ensures found <==> e in old(q.Contents)
      ensures q.Contents == Without(old(q.Contents), e)
    {
      RemoveKeepsOrder(released, q.Contents, Config(), made, e);
      found := q.Remove(e);
    }

    /** Splices the front of the queue out, then closes the release channels one after the other. */
    method DrainOneBurst(burst: nat)
      requires Valid()
      modifies Footprint()
      ensures Valid() && Config() == old(Config()) && made == old(made) && Footprint() == old(Footprint())
      ensures var n := BurstSize(old(q.Contents), burst);
              && released == old(released + q.Contents[..n])
              && q.Contents == old(q.Contents[n..])
      ensures |released| == |old(released)| + (if |old(q.Contents)| >= burst then burst else |old(q.Contents)|)
      ensures released + q.Contents == old(released + q.Contents)
    {
      DrainKeepsOrder(released, q.Contents, Config(), made, burst);
      if q.len == 0 {
        return;
      }
      var n := burst;
      if n > q.len {
        n := q.len;
      }
      var batch := q.TakeFront(n);
      for i := 0 to n
        invariant released == old(released) + batch[..i]
        invariant q.Valid() && q.Contents == old(q.Contents)[n..] && Footprint() == old(Footprint())
        invariant Config() == old(Config()) && made == old(made)
      {
        released := released + [batch[i]];
      }
      assert batch[..n] == batch;
    }
  }
}
