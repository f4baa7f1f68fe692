/** buildBroker: backends, their unloaders and their idle timeouts, aligned by index through the nil filter. */
module Wiring {
  import opened Wrappers
  import opened Config
  import opened YieldImpl

  /** An ollama backend always has an unloader, an openai one only when it has a unit name. */
  function UnloaderOf(family: Family, unitName: string, backend: nat): (u: Option<nat>) {
    if family == Ollama || unitName != "" then Some(backend) else None
  }

  /** Backend 0 is the default one, backend `i + 1` belongs to route `i`. */
  function Timeout(cfg: Configuration, k: nat): (d: int)
    requires k <= |cfg.routes|
  {
    if k == 0 then cfg.idle else cfg.routes[k - 1].idle
  }

  function Unloader(cfg: Configuration, k: nat): (u: Option<nat>)
    requires k <= |cfg.routes|
  {
    if k == 0 then UnloaderOf(cfg.family, cfg.unitName, 0)
    else UnloaderOf(cfg.routes[k - 1].family, cfg.routes[k - 1].unitName, k)
  }

  /** Who can be unloaded: an ollama backend through its API, any backend through its unit. */
  predicate HasUnloader(cfg: Configuration, k: nat)
    requires k <= |cfg.routes|
  {
    if k == 0 then cfg.family == Ollama || cfg.unitName != ""
    else cfg.routes[k - 1].family == Ollama || cfg.routes[k - 1].unitName != ""
  }

  /** The controller drives the backends that have an unloader, and no other. */
  lemma DrivesUnloaders(cfg: Configuration, all: seq<Option<nat>>, orig: seq<int>, kept: seq<nat>)
    requires |all| == |cfg.routes| + 1 && forall k :: 0 <= k < |all| ==> all[k] == Unloader(cfg, k)
    requires Controller.Aligned(all, orig, kept)
    ensures forall k: nat :: k in kept <==> k <= |cfg.routes| && HasUnloader(cfg, k)
  {
    forall k: nat | k <= |cfg.routes| && HasUnloader(cfg, k)
      ensures k in kept
    {
      assert all[k] == Some(k) && kept[orig[k]] == k;
    }
    forall p | 0 <= p < |kept|
      ensures kept[p] <= |cfg.routes| && HasUnloader(cfg, kept[p])
    {
      assert p in orig;
      var k :| 0 <= k < |orig| && orig[k] == p;
      assert all[k] == Some(k);
    }
  }

  lemma AloneOrNothing(u: Option<nat>, orig: seq<int>, kept: seq<nat>)
    requires Controller.Aligned(if u.Some? then [u] else [], orig, kept)
    ensures kept == if u.Some? then [u.value] else []
  {
    var all := if u.Some? then [u] else [];
    assert |orig| == |all|;
    assert u.Some? ==> all[0].Some? && 0 <= orig[0] < |kept|;
    if |kept| > 0 {
      OnlyMember(orig, 0);
      assert all[0].Some? && kept[orig[0]] == all[0].value;
      if |kept| > 1 {
        OnlyMember(orig, 1);
      }
    }
  }

  lemma OnlyMember<T>(s: seq<T>, x: T)
    requires x in s && |s| <= 1
    ensures s == [x]
  {
  }

  /** Every backend with an idle timeout has an unloader. */
  ghost predicate TimeoutsBacked(cfg: Configuration) {
    forall k :: 0 <= k <= |cfg.routes| && Timeout(cfg, k) != 0 ==> Unloader(cfg, k).Some?
  }

  /** What config.Load lets through always satisfies it. */
  lemma LoadedIsBacked(env: Env, cfg: Configuration)
    requires Acceptable(env)
    requires cfg.family == env.family && cfg.unitName == env.unitName && cfg.idle == env.idle
    requires |cfg.routes| == Highest(env.routes)
    requires forall i :: 0 <= i < |cfg.routes| ==> cfg.routes[i] == ToRoute(env.routes[i])
    ensures TimeoutsBacked(cfg)
    ensures forall k :: 0 <= k <= |cfg.routes| ==> Timeout(cfg, k) >= 0
  {
    forall i | 0 <= i < |cfg.routes|
      ensures RouteOk(env.routes[i])
    {
    }
  }

  /** Backend `k` is tracked at the position whose unloader is its own, with idle timeout `d`. */
  ghost predicate TrackedAsItself(ctrl: Controller, k: nat, d: int)
    reads ctrl
  {
    && k < |ctrl.origToFiltered|
    && 0 <= ctrl.origToFiltered[k] < |ctrl.unloaders| == |ctrl.idleTimeouts|
    && ctrl.unloaders[ctrl.origToFiltered[k]] == k && ctrl.idleTimeouts[ctrl.origToFiltered[k]] == d
  }

  /**
   Returns false where the source would panic in ConfigureIdle or TrackActivity: with routes,
   exactly when some timeout has no unloader behind it; without routes, never.
   */
  method BuildBroker(cfg: Configuration, polls: int, now: int) returns (ok: bool, ctrl: Controller, decorated: seq<bool>)
    ensures fresh(ctrl) && ctrl.Valid()
    ensures ok <==> cfg.routes == [] || TimeoutsBacked(cfg)
    ensures ok ==> forall k: nat :: k in ctrl.unloaders <==> k <= |cfg.routes| && HasUnloader(cfg, k)
    ensures ok ==> |decorated| == |cfg.routes| + 1
    ensures ok ==> forall k :: 0 <= k <= |cfg.routes| ==>
                     (decorated[k] <==> Timeout(cfg, k) != 0 && Unloader(cfg, k).Some?)
                     && (decorated[k] ==> TrackedAsItself(ctrl, k, Timeout(cfg, k)))
  {
    if cfg.routes == [] {
      var u := Unloader(cfg, 0);
      ctrl := new Controller(if u.Some? then [u] else [], polls, now);
      decorated := [false];
      AloneOrNothing(u, ctrl.origToFiltered, ctrl.unloaders);
      if u.Some? {
        var _ := ctrl.ConfigureIdle([cfg.idle]);
        decorated := [cfg.idle != 0];
      }
      return true, ctrl, decorated;
    }
    var n := |cfg.routes| + 1;
    var unloaders := seq(n, k requires 0 <= k < n => Unloader(cfg, k));
    ctrl := new Controller(unloaders, polls, now);
    DrivesUnloaders(cfg, unloaders, ctrl.origToFiltered, ctrl.unloaders);
    assert forall k :: 0 <= k < n ==> (ctrl.origToFiltered[k] == -1 <==> unloaders[k].None?);
    var timeouts := seq(n, k requires 0 <= k < n => Timeout(cfg, k));
    assert forall k :: 0 <= k < n ==> timeouts[k] == Timeout(cfg, k) && unloaders[k] == Unloader(cfg, k);
    if TimeoutsBacked(cfg) {
      assert ctrl.IdleConfigOk(timeouts);
    } else {
      var k :| 0 <= k < n && Timeout(cfg, k) != 0 && Unloader(cfg, k).None?;
      assert ctrl.origToFiltered[k] == -1 && timeouts[k] != 0;
    }
    ok := ctrl.ConfigureIdle(timeouts);
    if !ok {
      return false, ctrl, [];
    }
    decorated := [];
    for k := 0 to n
      invariant |decorated| == k
      invariant forall j :: 0 <= j < k ==> decorated[j] == (Timeout(cfg, j) != 0)
    {
      if Timeout(cfg, k) != 0 && ctrl.origToFiltered[k] == -1 {
        return false, ctrl, [];
      }
      decorated := decorated + [Timeout(cfg, k) != 0];
    }
  }

  /** From the environment to the wired broker: every accepted one is wired, without a panic. */
  method Start(env: Env, polls: int, now: int) returns (ok: bool, ctrl: Controller?, decorated: seq<bool>)
    ensures ok <==> Acceptable(env)
    ensures ok ==> ctrl != null && ctrl.Valid() && |decorated| == Highest(env.routes) + 1
    ensures ok && env.idle != 0 ==> (decorated[0] && TrackedAsItself(ctrl, 0, env.idle))
    ensures ok ==> forall i :: 0 <= i < Highest(env.routes) ==>
                     env.routes[i].idle.Some?
                     && decorated[i + 1] == (env.routes[i].idle.value != 0)
                     && (decorated[i + 1] ==> TrackedAsItself(ctrl, i + 1, env.routes[i].idle.value))
  {
    var loaded := Load(env);
    if loaded.None? {
      return false, null, [];
    }
    var cfg := loaded.value;
    LoadedIsBacked(env, cfg);
    ok, ctrl, decorated := BuildBroker(cfg, polls, now);
    assert Timeout(cfg, 0) == env.idle;
    forall i | 0 <= i < |cfg.routes|
      ensures env.routes[i].idle.Some? && Timeout(cfg, i + 1) == env.routes[i].idle.value
    {
      assert RouteOk(env.routes[i]);
    }
  }
}
