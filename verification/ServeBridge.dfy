/**
 The Gate and the worker know the controller only as a yield state and the number of the current
 serve context. Every step of the controller moves these two as the SetYielding steps of the two
 models do, and the contexts it has cancelled are those the models take for cancelled.
 */
module ServeBridge {
  import Gate
  import Worker = WorkerRaces
  import Yield = YieldRaces

  /** Gate `g` sees the controller as it is. */
  ghost predicate GateSees(y: Yield.Sys, g: Gate.Sys) {
    && g.Yielding() == y.ctl.effective && g.epoch == y.ctl.serve
    && forall ctx: nat :: ctx <= y.ctl.serve ==> (ctx in y.ctl.cancelled <==> g.Cancelled(ctx))
  }

  ghost predicate WorkerSees(y: Yield.Sys, w: Worker.Sys) {
    && w.yielding == y.ctl.effective && w.epoch == y.ctl.serve
    && forall ctx: nat :: ctx <= y.ctl.serve ==> (ctx in y.ctl.cancelled <==> w.ServeDone(ctx))
  }

  /** A process starts with all three in agreement. */
  lemma StartsAgree(y: Yield.Sys, g: Gate.Sys, w: Worker.Sys)
    requires y.ctl.serve == 0 && !y.ctl.effective && y.ctl.cancelled == {}
    requires g.epoch == 0 && !g.Yielding() && w.epoch == 0 && !w.yielding
    ensures GateSees(y, g) && WorkerSees(y, w)
  {
  }

  /** Only the locked regions that apply the mode move the yield state, and how. */
  lemma StepMovesServe(y: Yield.Sys, e: Yield.Event)
    requires Yield.Shape(y) && Yield.Enabled(y, e)
    ensures var c, c' := y.ctl, Yield.Next(y, e).ctl;
            && c'.serve == (if c.effective && !c'.effective then c.serve + 1 else c.serve)
            && c'.cancelled == (if !c.effective && c'.effective then c.cancelled + {c.serve} else c.cancelled)
  {
    if e.ReqStep? {
      assert Yield.Next(y, e).ctl == Yield.ReqNext(y, e.r).ctl;
    }
  }

  /** One controller step, as the Gate sees it. */
  lemma StepIsSetYielding(y: Yield.Sys, e: Yield.Event, g: Gate.Sys)
    requires Yield.Shape(y) && Yield.Enabled(y, e) && Yield.ServeOk(y) && GateSees(y, g)
    ensures var y' := Yield.Next(y, e); GateSees(y', Gate.Next(g, Gate.SetYielding(y'.ctl.effective)))
  {
    StepMovesServe(y, e);
  }

  lemma StepIsSetYieldingForWorker(y: Yield.Sys, e: Yield.Event, w: Worker.Sys)
    requires Yield.Shape(y) && Yield.Enabled(y, e) && Yield.ServeOk(y) && WorkerSees(y, w)
    ensures var y' := Yield.Next(y, e); WorkerSees(y', Worker.Next(w, Worker.SetYielding(y'.ctl.effective)))
  {
    StepMovesServe(y, e);
  }

  /** Nothing else the Gate does touches what it sees of the controller. */
  lemma OnlySetYieldingMoves(g: Gate.Sys, e: Gate.Event)
    requires Gate.Enabled(g, e) && !e.SetYielding?
    ensures Gate.Next(g, e).Yielding() == g.Yielding() && Gate.Next(g, e).epoch == g.epoch
  {
  }

  lemma OnlySetYieldingMovesWorker(w: Worker.Sys, e: Worker.Event)
    requires Worker.Enabled(w, e) && !e.SetYielding? && !e.Crash?
    ensures Worker.Next(w, e).yielding == w.yielding && Worker.Next(w, e).epoch == w.epoch
  {
    Worker.YieldViewMoves(w, e);
  }

  /** The yield states a controller run goes through, as Gate events. */
  function Flips(y: Yield.Sys, es: seq<Yield.Event>): (r: seq<Gate.Event>)
    requires Yield.Shape(y) && Yield.CanRun(y, es)
    decreases |es|
  {
    if es == [] then []
    else [Gate.SetYielding(Yield.Next(y, es[0]).ctl.effective)] + Flips(Yield.Next(y, es[0]), es[1..])
  }

  /** Every run of the controller is one the Gate model has: what it sees agrees all the way. */
  lemma {:induction false} RunsAgree(y: Yield.Sys, es: seq<Yield.Event>, g: Gate.Sys)
    requires Yield.Inv(y) && Yield.CanRun(y, es) && GateSees(y, g)
    ensures Gate.CanRun(g, Flips(y, es)) && GateSees(Yield.Run(y, es), Gate.Run(g, Flips(y, es)))
    decreases |es|
  {
    if es != [] {
      var y', e := Yield.Next(y, es[0]), Gate.SetYielding(Yield.Next(y, es[0]).ctl.effective);
      StepIsSetYielding(y, es[0], g);
      Yield.NextKeepsInv(y, es[0]);
      RunsAgree(y', es[1..], Gate.Next(g, e));
      assert Flips(y, es)[0] == e && Flips(y, es)[1..] == Flips(y', es[1..]);
    }
  }

  function FlipsForWorker(y: Yield.Sys, es: seq<Yield.Event>): (r: seq<Worker.Event>)
    requires Yield.Shape(y) && Yield.CanRun(y, es)
    decreases |es|
  {
    if es == [] then []
    else [Worker.SetYielding(Yield.Next(y, es[0]).ctl.effective)] + FlipsForWorker(Yield.Next(y, es[0]), es[1..])
  }

  lemma {:induction false} RunsAgreeForWorker(y: Yield.Sys, es: seq<Yield.Event>, w: Worker.Sys)
    requires Yield.Inv(y) && Yield.CanRun(y, es) && WorkerSees(y, w)
    ensures Worker.CanRun(w, FlipsForWorker(y, es)) && WorkerSees(Yield.Run(y, es), Worker.Run(w, FlipsForWorker(y, es)))
    decreases |es|
  {
    if es != [] {
      var y', e := Yield.Next(y, es[0]), Worker.SetYielding(Yield.Next(y, es[0]).ctl.effective);
      StepIsSetYieldingForWorker(y, es[0], w);
      Yield.NextKeepsInv(y, es[0]);
      RunsAgreeForWorker(y', es[1..], Worker.Next(w, e));
      assert FlipsForWorker(y, es)[0] == e && FlipsForWorker(y, es)[1..] == FlipsForWorker(y', es[1..]);
    }
  }
}
