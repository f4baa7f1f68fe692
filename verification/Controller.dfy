/** The Controller object, its per-instance slices updated in place. */
module YieldImpl {
  import opened DebounceHistory
  import opened Wrappers
  import opened YieldSpec

  function Zip(timeouts: seq<int>, last: seq<int>, flights: seq<int>, unloaded: seq<bool>,
               done: seq<Option<Chan>>, actions: seq<seq<Action>>): (insts: seq<Instance>)
    requires |done| == |timeouts| == |last| == |flights| == |unloaded| == |actions|
    ensures |insts| == |actions|
    ensures forall k :: 0 <= k < |insts| ==>
              insts[k] == Instance(timeouts[k], last[k], flights[k], unloaded[k], done[k], actions[k])
  {
    seq(|actions|, k requires 0 <= k < |actions| => Instance(timeouts[k], last[k], flights[k], unloaded[k], done[k], actions[k]))
  }

  class Controller {
    const confirmPolls: nat
    /** The non-nil unloaders, each named by the backend it drives. */
    const unloaders: seq<nat>
    /** origToFiltered[k] is the position of the k-th configured unloader, or -1 if it was nil. */
    const origToFiltered: seq<int>

    var mode: Mode
    var autoContended: bool
    var autoReason: string
    var effective: bool
    var confirmCount: nat
    var confirmReason: string
    var serveCtx: nat
    var cancelled: set<nat>
    var actionDone: seq<Option<Chan>>
    var idleTimeouts: seq<int>
    var lastDispatch: seq<int>
    var inFlight: seq<int>
    var idleUnloaded: seq<bool>
    /** The goroutines spawned for each instance, oldest first. */
    var spawned: seq<seq<Action>>
    /** The observations RefreshOn has been given, oldest first. */
    ghost var history: seq<Observation>

    ghost predicate Valid()
      reads this`actionDone, this`idleTimeouts, this`lastDispatch, this`inFlight, this`idleUnloaded, this`spawned
    {
      && |actionDone| == |idleTimeouts| == |lastDispatch| == |inFlight| == |idleUnloaded| == |spawned|
      && (forall k :: 0 <= k < |origToFiltered| ==> -1 <= origToFiltered[k] < |spawned|)
    }

    /** Between locked regions the debouncer has counted every observation, and the yield state follows from it. */
    ghost predicate Settled()
      reads this`mode, this`autoContended, this`autoReason, this`effective, this`confirmCount, this`confirmReason, this`history
    {
      && confirmPolls >= 1 && Debounce(confirmCount, confirmReason) == After(history)
      && (autoContended, autoReason) == (if history == [] then (false, "") else LastReport(history, confirmPolls))
      && (effective <==> mode == ForceYield || (mode == Auto && autoContended))
    }

    /** The last confirmPolls observations all saw contention for one reason. */
    ghost predicate Contended()
      reads this`history
    {
      exists r :: Sustained(history, r, confirmPolls)
    }

    lemma SettledMeans()
      requires Settled()
      ensures autoContended <==> Contended()
      ensures if autoContended then Sustained(history, autoReason, confirmPolls) else autoReason == ""
      ensures effective <==> mode == ForceYield || (mode == Auto && Contended())
    {
      if history == [] {
        assert forall r :: !Sustained(history, r, confirmPolls);
      } else {
        ReportsSustainedContention(history, confirmPolls, autoReason);
        NoReasonUnlessReported(history, confirmPolls);
      }
    }

    ghost function Inst(i: nat): Instance
      requires Valid() && i < |spawned|
      reads this`actionDone, this`idleTimeouts, this`lastDispatch, this`inFlight, this`idleUnloaded, this`spawned
    {
      Instance(idleTimeouts[i], lastDispatch[i], inFlight[i], idleUnloaded[i], actionDone[i], spawned[i])
    }

    ghost function Insts(): (insts: seq<Instance>)
      requires Valid()
      ensures |insts| == |spawned| && forall k :: 0 <= k < |insts| ==> insts[k] == Inst(k)
      reads this`actionDone, this`idleTimeouts, this`lastDispatch, this`inFlight, this`idleUnloaded, this`spawned
    {
      Zip(idleTimeouts, lastDispatch, inFlight, idleUnloaded, actionDone, spawned)
    }

    ghost function View(): Ctl
      requires Valid()
      reads this
    {
      Ctl(mode, autoContended, autoReason, effective, Debounce(confirmCount, confirmReason), serveCtx, cancelled, Insts())
    }

    /** `orig` sends each non-nil unloader to its place in `kept`, in order, and each nil one to -1. */
    static ghost predicate Aligned(all: seq<Option<nat>>, orig: seq<int>, kept: seq<nat>) {
      && |orig| == |all|
      && (forall k :: 0 <= k < |orig| ==>
            if all[k].Some? then 0 <= orig[k] < |kept| && kept[orig[k]] == all[k].value else orig[k] == -1)
      && (forall j, k :: 0 <= j < k < |orig| && all[j].Some? && all[k].Some? ==> orig[j] < orig[k])
      && (forall p :: 0 <= p < |kept| ==> p in orig)
    }

    /** The nil filter of NewWithConfirmMulti. */
    static method FilterNil(all: seq<Option<nat>>) returns (orig: seq<int>, kept: seq<nat>)
      ensures Aligned(all, orig, kept)
    {
      orig, kept := [], [];
      for i := 0 to |all|
        invariant Aligned(all[..i], orig, kept)
      {
        ghost var before := orig;
        if all[i].Some? {
          orig := orig + [|kept|];
          kept := kept + [all[i].value];
        } else {
          orig := orig + [-1];
        }
        assert forall p :: 0 <= p < |before| ==> orig[p] == before[p];
        assert orig[i] == (if all[i].Some? then |kept| - 1 else -1);
        assert all[..i + 1] == all[..i] + [all[i]];
      }
      assert all[..|all|] == all;
    }

    constructor (all: seq<Option<nat>>, polls: int, now: int)
      ensures Valid() && Aligned(all, origToFiltered, unloaders) && |spawned| == |unloaders|
      ensures confirmPolls == (if polls < 1 then 1 else polls) && Settled() && history == []
      ensures View() == Ctl(Auto, false, "", false, FRESH, 0, {},
                            seq(|unloaders|, _ => Instance(0, now, 0, false, None, [])))
    {
      var orig, kept := FilterNil(all);
      var n := |kept|;
      origToFiltered, unloaders, confirmPolls := orig, kept, if polls < 1 then 1 else polls;
      mode, autoContended, autoReason, effective := Auto, false, "", false;
      confirmCount, confirmReason, serveCtx, cancelled := 0, "", 0, {};
      history := [];
      actionDone, spawned := seq(n, _ => None), seq(n, _ => []);
      idleTimeouts, lastDispatch := seq(n, _ => 0), seq(n, _ => now);
      inFlight, idleUnloaded := seq(n, _ => 0), seq(n, _ => false);
    }

    /** What ConfigureIdle panics on: a wrong length, or a timeout for a filtered-out unloader. */
    ghost predicate IdleConfigOk(timeouts: seq<int>)
      reads this
    {
      && |timeouts| == |origToFiltered|
      && forall k :: 0 <= k < |timeouts| && origToFiltered[k] == -1 ==> timeouts[k] == 0
    }

    /** Returns false where the source panics. */
    method ConfigureIdle(timeouts: seq<int>) returns (ok: bool)
      requires Valid()
      requires forall j, k :: 0 <= j < k < |origToFiltered| && origToFiltered[j] != -1 ==> origToFiltered[j] != origToFiltered[k]
      modifies this`idleTimeouts
      ensures Valid()
      ensures ok <==> IdleConfigOk(timeouts)
      ensures ok ==> forall k :: 0 <= k < |timeouts| && origToFiltered[k] != -1 ==>
                       idleTimeouts[origToFiltered[k]] == timeouts[k]
    {
      if |timeouts| != |origToFiltered| {
        return false;
      }
      for i := 0 to |timeouts|
        invariant Valid()
        invariant forall k :: 0 <= k < i && origToFiltered[k] == -1 ==> timeouts[k] == 0
        invariant forall k :: 0 <= k < i && origToFiltered[k] != -1 ==> idleTimeouts[origToFiltered[k]] == timeouts[k]
      {
        var post := origToFiltered[i];
        if post == -1 {
          if timeouts[i] != 0 {
            return false;
          }
        } else {
          idleTimeouts := idleTimeouts[post := timeouts[i]];
        }
      }
      return true;
    }

    method DebounceLocked(o: Observation) returns (contended: bool, reason: string)
      modifies this`confirmCount, this`confirmReason
      ensures (contended, reason) == Report(old(Debounce(confirmCount, confirmReason)), confirmPolls, o)
      ensures Debounce(confirmCount, confirmReason) == Count(old(Debounce(confirmCount, confirmReason)), o)
    {
      if !o.contended {
        confirmCount, confirmReason := 0, "";
        return false, "";
      }
      if o.reason == confirmReason {
        confirmCount := confirmCount + 1;
      } else {
        confirmReason, confirmCount := o.reason, 1;
      }
      if confirmCount < confirmPolls {
        return false, "";
      }
      return true, o.reason;
    }

    method ComputeLocked() returns (eff: bool, reason: string)
      requires Valid()
      ensures (eff, reason) == Compute(View())
    {
      match mode
      case ForceYield => return true, "manual";
      case ForceServe => return false, "";
      case Auto => return autoContended, autoReason;
    }

    /** startAction, and the `go` statement every caller follows it with. */
    method StartAndSpawn(i: nat, kind: Kind, trigger: Trigger)
      requires Valid() && i < |spawned|
      modifies this`actionDone, this`spawned
      ensures Valid() && |spawned| == old(|spawned|)
      ensures Inst(i) == StartAction(old(Inst(i)), i, kind, trigger)
      ensures spawned[i] == old(spawned[i]) + [Action(kind, trigger, old(actionDone[i]), Blocked)]
      ensures actionDone[i] == Some(Chan(i, |old(spawned[i])|))
      ensures forall k :: 0 <= k < |spawned| && k != i ==> Inst(k) == old(Inst(k))
    {
      var wait := actionDone[i];
      var done := Chan(i, |spawned[i]|);
      actionDone := actionDone[i := Some(done)];
      spawned := spawned[i := spawned[i] + [Action(kind, trigger, wait, Blocked)]];
    }

    /** Every instance got exactly one more action, of this kind, waiting on the one before. */
    twostate predicate SpawnedEverywhere(kind: Kind)
      reads this`actionDone, this`spawned
    {
      && |spawned| == |old(spawned)| == |actionDone| == |old(actionDone)|
      && forall k :: 0 <= k < |spawned| ==>
           && spawned[k] == old(spawned)[k] + [Action(kind, ByYield, old(actionDone)[k], Blocked)]
           && actionDone[k] == Some(Chan(k, |old(spawned)[k]|))
    }

    method SpawnOnAll(kind: Kind)
      requires Valid()
      modifies this`actionDone, this`spawned
      ensures Valid() && Insts() == SpawnAll(old(Insts()), kind)
      ensures SpawnedEverywhere(kind)
    {
      ghost var was := Insts();
      for i := 0 to |spawned|
        invariant Valid() && |spawned| == |was|
        invariant forall k :: 0 <= k < |was| ==> Inst(k) == if k < i then StartAction(was[k], k, kind, ByYield) else was[k]
      {
        StartAndSpawn(i, kind, ByYield);
      }
      assert forall k :: 0 <= k < |spawned| ==>
               Inst(k) == StartAction(was[k], k, kind, ByYield) && was[k].actions == old(spawned)[k] && was[k].actionDone == old(actionDone)[k];
    }

    method ResetIdle(now: int)
      requires Valid()
      modifies this`lastDispatch, this`idleUnloaded
      ensures Valid() && Insts() == ResetAll(old(Insts()), now)
      ensures forall k :: 0 <= k < |lastDispatch| ==> lastDispatch[k] == now && !idleUnloaded[k]
    {
      ghost var was := Insts();
      for i := 0 to |idleTimeouts|
        invariant Valid() && |spawned| == |was|
        invariant forall k :: 0 <= k < |was| ==>
                    Inst(k) == if k < i then was[k].(lastDispatch := now, idleUnloaded := false) else was[k]
        invariant forall k :: 0 <= k < i ==> lastDispatch[k] == now && !idleUnloaded[k]
      {
        lastDispatch := lastDispatch[i := now];
        idleUnloaded := idleUnloaded[i := false];
      }
    }

    /**
     When the mode and the automatic verdict call for a yield that is not on, the serve context is
     cancelled and everything told to unload; when they no longer do, there is a new context,
     everything is told to reload, and every idle clock starts afresh; otherwise nothing happens.
     */
    method ApplyLocked(now: int)
      requires Valid()
      modifies this`effective, this`serveCtx, this`cancelled, this`actionDone, this`spawned, this`lastDispatch, this`idleUnloaded
      ensures Valid() && View() == Apply(old(View()), now)
      ensures effective <==> mode == ForceYield || (mode == Auto && autoContended)
      ensures effective == old(effective) ==> View() == old(View())
      ensures effective && !old(effective) ==>
                && SpawnedEverywhere(Unload) && cancelled == old(cancelled) + {serveCtx} && serveCtx == old(serveCtx)
                && lastDispatch == old(lastDispatch) && idleUnloaded == old(idleUnloaded)
      ensures !effective && old(effective) ==>
                && SpawnedEverywhere(Reload) && cancelled == old(cancelled) && serveCtx == old(serveCtx) + 1
                && forall k :: 0 <= k < |lastDispatch| ==> lastDispatch[k] == now && !idleUnloaded[k]
    {
      var eff, _ := ComputeLocked();
      if eff == effective {
        return;
      }
      effective := eff;
      if eff {
        cancelled := cancelled + {serveCtx};
        SpawnOnAll(Unload);
      } else {
        serveCtx := serveCtx + 1;
        SpawnOnAll(Reload);
        ResetIdle(now);
      }
    }

    /** Instance `k` is up to be idle-unloaded. */
    ghost predicate IdleDue(k: nat, now: int)
      reads this`effective, this`idleTimeouts, this`inFlight, this`idleUnloaded, this`lastDispatch
      requires k < |idleTimeouts| == |inFlight| == |idleUnloaded| == |lastDispatch|
    {
      idleTimeouts[k] != 0 && !effective && inFlight[k] <= 0 && !idleUnloaded[k] && now - lastDispatch[k] >= idleTimeouts[k]
    }

    method CheckIdleLocked(now: int)
      requires Valid()
      modifies this`actionDone, this`spawned, this`idleUnloaded
      ensures Valid() && View() == CheckIdle(old(View()), now)
      ensures |spawned| == |old(spawned)|
      ensures forall k :: 0 <= k < |spawned| ==>
                if old(IdleDue(k, now))
                then idleUnloaded[k] && spawned[k] == old(spawned)[k] + [Action(Unload, ByIdle, old(actionDone)[k], Blocked)]
                else idleUnloaded[k] == old(idleUnloaded)[k] && spawned[k] == old(spawned)[k]
      ensures forall k :: 0 <= k < |spawned| ==> !IdleDue(k, now)
    {
      ghost var was := View().insts;
      for i := 0 to |idleTimeouts|
        invariant Valid() && |spawned| == |was|
        invariant forall k :: 0 <= k < |was| ==> Inst(k) == if k < i then IdleCheck(was[k], k, effective, now) else was[k]
      {
        if idleTimeouts[i] != 0 && !effective && inFlight[i] <= 0 && !idleUnloaded[i] {
          var elapsed := now - lastDispatch[i];
          if elapsed >= idleTimeouts[i] {
            idleUnloaded := idleUnloaded[i := true];
            StartAndSpawn(i, Unload, ByIdle);
          }
        }
      }
      assert Insts() == AllChecked(was, effective, now);
      assert forall k :: 0 <= k < |spawned| ==> Inst(k) == IdleCheck(was[k], k, effective, now);
      assert forall k :: 0 <= k < |spawned| ==> was[k] == old(Inst(k));
    }

    /** The yield state follows the new mode before the lock is given up. */
    method SetModeTo(m: Mode, now: int)
      requires Valid() && Settled()
      modifies this
      ensures Valid() && Settled() && View() == SetMode(old(View()), m, now)
      ensures mode == m && history == old(history)
      ensures effective <==> m == ForceYield || (m == Auto && Contended())
    {
      mode := m;
      ApplyLocked(now);
      SettledMeans();
    }

    /** The broker yields iff forced to, or in auto mode once enough observations in a row agree, this one included. */
    method RefreshOn(o: Observation, now: int)
      requires Valid() && Settled()
      modifies this
      ensures Valid() && Settled() && View() == Refresh(old(View()), confirmPolls, o, now)
      ensures mode == old(mode) && history == old(history) + [o]
      ensures forall k :: 0 <= k < |spawned| ==> !IdleDue(k, now)
      ensures autoContended <==> Contended()
      ensures effective <==> mode == ForceYield || (mode == Auto && Contended())
    {
      ghost var was := View();
      history := history + [o];
      assert history[..|history| - 1] == old(history);
      autoContended, autoReason := DebounceLocked(o);
      assert View() == was.(debounce := Count(was.debounce, o), autoContended := autoContended, autoReason := autoReason);
      ApplyLocked(now);
      assert View() == Poll(was, confirmPolls, o, now);
      CheckIdleLocked(now);
      SettledMeans();
    }

    /** The TrackActivity handler up to ServeHTTP, when nothing interleaves with it. */
    method BeginRequest(i: nat, now: int) returns (woke: bool)
      requires Valid() && i < |spawned|
      modifies this`inFlight, this`lastDispatch, this`idleUnloaded, this`actionDone, this`spawned
      ensures Valid() && |spawned| == old(|spawned|)
      ensures woke == old(idleUnloaded[i]) && !idleUnloaded[i]
      ensures var x := old(Inst(i)).(inFlight := old(inFlight[i]) + 1, lastDispatch := now, idleUnloaded := false);
              Inst(i) == if woke then StartAction(x, i, Reload, ByIdle) else x
      ensures forall k :: 0 <= k < |spawned| && k != i ==> Inst(k) == old(Inst(k))
    {
      inFlight := inFlight[i := inFlight[i] + 1];
      lastDispatch := lastDispatch[i := now];
      woke := idleUnloaded[i];
      if woke {
        idleUnloaded := idleUnloaded[i := false];
        StartAndSpawn(i, Reload, ByIdle);
      }
    }

    /** Its deferred tail, which runs on return and on panic alike. */
    method EndRequest(i: nat, now: int)
      requires Valid() && i < |spawned|
      modifies this`inFlight, this`lastDispatch
      ensures Valid() && |spawned| == old(|spawned|)
      ensures Inst(i) == old(Inst(i)).(inFlight := old(inFlight[i]) - 1, lastDispatch := now)
      ensures forall k :: 0 <= k < |spawned| && k != i ==> Inst(k) == old(Inst(k))
    {
      inFlight := inFlight[i := inFlight[i] - 1];
      lastDispatch := lastDispatch[i := now];
    }
  }
}
