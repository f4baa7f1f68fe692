/** config.Load's route loop and its idle and unit-name validation. */
module Config {
  import opened Wrappers
  import opened Strings

  datatype Family = Ollama | OpenAI

  /**
   The BROKER_ROUTE_<N>_* variables of one index, defaults applied. `url` is what parsing the
   URL yields, printed back, and None when it is malformed; `idle` likewise for the duration.
   */
  datatype RouteEnv = RouteEnv(
    models: string, backend: string, url: Option<string>, apiKey: string, unitName: string, idle: Option<int>, lane: string)

  /** The default backend's variables, already trimmed or parsed, and all 32 route indices. */
  datatype Env = Env(family: Family, url: string, unitName: string, idle: int, routes: seq<RouteEnv>)

  datatype Route = Route(models: seq<string>, family: Family, url: string, unitName: string, idle: int, lane: string)

  datatype Configuration = Configuration(family: Family, unitName: string, idle: int, routes: seq<Route>)

  const MAX_ROUTES: nat := 16

  function TrimAll(ss: seq<string>): (r: seq<string>)
    ensures |r| == |ss|
  {
    seq(|ss|, k requires 0 <= k < |ss| => TrimSpace(ss[k]))
  }

  function Models(e: RouteEnv): (r: seq<string>) {
    TrimAll(Split(e.models, ','))
  }

  /** The highest index, counted from 1, whose models are set; 0 when routing is off. */
  function Highest(routes: seq<RouteEnv>): (h: nat)
    ensures h <= |routes|
  {
    if routes == [] then 0
    else if routes[|routes| - 1].models != "" then |routes|
    else Highest(routes[..|routes| - 1])
  }

  // ----- what a configuration must satisfy -----

  ghost predicate NoRepeats(s: seq<string>) {
    forall j, k :: 0 <= j < k < |s| ==> s[j] != s[k]
  }

  ghost predicate Disjoint(a: seq<string>, b: seq<string>) {
    forall j, k :: 0 <= j < |a| && 0 <= k < |b| ==> a[j] != b[k]
  }

  predicate HasBreak(s: string) {
    '\r' in s || '\n' in s
  }

  /** Rules about one route alone. */
  ghost predicate RouteOk(e: RouteEnv) {
    && e.models != "" && "" !in Models(e) && NoRepeats(Models(e))
    && (e.backend == "ollama" || e.backend == "openai")
    && e.url.Some? && !HasBreak(e.apiKey)
    && e.idle.Some? && e.idle.value >= 0 && (e.idle.value != 0 ==> TrimSpace(e.unitName) != "")
    && (e.lane == "" || e.lane == "interactive" || e.lane == "batch")
  }

  predicate UnitsDiffer(a: string, b: string) {
    a == "" || a != b
  }

  /** Rules about two instances: no shared URL or unit name. */
  predicate Apart(url1: string, unit1: string, url2: string, unit2: string) {
    url1 != url2 && UnitsDiffer(unit1, unit2)
  }

  ghost predicate PairOk(a: RouteEnv, b: RouteEnv) {
    && a.url.Some? && b.url.Some? && Disjoint(Models(a), Models(b))
    && Apart(a.url.value, TrimSpace(a.unitName), b.url.value, TrimSpace(b.unitName))
  }

  /** The first `n` routes obey every rule among themselves and against the default backend. */
  ghost predicate PrefixOk(env: Env, n: nat)
    requires n <= |env.routes|
  {
    && (forall i :: 0 <= i < n ==> RouteOk(env.routes[i]))
    && (forall i :: 0 <= i < n ==> Apart(env.routes[i].url.value, TrimSpace(env.routes[i].unitName), env.url, env.unitName))
    && (forall i, j :: 0 <= i < j < n ==> PairOk(env.routes[i], env.routes[j]))
  }

  ghost predicate Acceptable(env: Env) {
    && env.idle >= 0 && (env.idle != 0 ==> env.unitName != "")
    && Highest(env.routes) <= 16
    && PrefixOk(env, Highest(env.routes))
  }

  lemma PrefixFails(env: Env, m: nat, n: nat)
    requires m <= n <= |env.routes| && !PrefixOk(env, m)
    ensures !PrefixOk(env, n)
  {
  }

  function ToRoute(e: RouteEnv): (r: Route)
    requires e.url.Some? && e.idle.Some?
  {
    Route(Models(e), if e.backend == "ollama" then Ollama else OpenAI, e.url.value, TrimSpace(e.unitName), e.idle.value, e.lane)
  }

  /** Route `r` holds what the variables say, the models trimmed one by one and in order. */
  ghost predicate Reads(e: RouteEnv, r: Route) {
    && (r.family == Ollama <==> e.backend == "ollama") && (r.family == OpenAI <==> e.backend == "openai")
    && e.url == Some(r.url) && e.idle == Some(r.idle) && r.unitName == TrimSpace(e.unitName) && r.lane == e.lane
    && |r.models| == |Split(e.models, ',')|
    && forall k :: 0 <= k < |r.models| ==> r.models[k] == TrimSpace(Split(e.models, ',')[k])
  }

  /** No two instances share a URL or a unit, no model has two routes, and whatever may idle can be unloaded by unit. */
  ghost predicate Unambiguous(cfg: Configuration, defaultUrl: string) {
    && cfg.idle >= 0 && (cfg.idle != 0 ==> cfg.unitName != "") && |cfg.routes| <= 16
    && (forall i :: 0 <= i < |cfg.routes| ==>
          var r := cfg.routes[i];
          && r.url != defaultUrl && (r.unitName != "" ==> r.unitName != cfg.unitName)
          && r.idle >= 0 && (r.idle != 0 ==> r.unitName != "")
          && "" !in r.models && (forall j, k :: 0 <= j < k < |r.models| ==> r.models[j] != r.models[k])
          && (r.lane == "" || r.lane == "interactive" || r.lane == "batch"))
    && forall i, j :: 0 <= i < j < |cfg.routes| ==>
         var a, b := cfg.routes[i], cfg.routes[j];
         && a.url != b.url && (a.unitName != "" ==> a.unitName != b.unitName)
         && forall m, n :: 0 <= m < |a.models| && 0 <= n < |b.models| ==> a.models[m] != b.models[n]
  }

  lemma AcceptedIsUnambiguous(env: Env, cfg: Configuration)
    requires Acceptable(env) && cfg.unitName == env.unitName && cfg.idle == env.idle
    requires |cfg.routes| == Highest(env.routes)
    requires forall i :: 0 <= i < |cfg.routes| ==> RouteOk(env.routes[i]) && cfg.routes[i] == ToRoute(env.routes[i])
    ensures Unambiguous(cfg, env.url)
  {
    forall i, j | 0 <= i < j < |cfg.routes|
      ensures PairOk(env.routes[i], env.routes[j])
    {
    }
  }

  lemma RouteReads(e: RouteEnv)
    requires RouteOk(e)
    ensures Reads(e, ToRoute(e))
  {
  }

  // ----- the loops -----

  method FindHighest(routes: seq<RouteEnv>) returns (h: nat)
    ensures h == Highest(routes)
  {
    h := 0;
    for i := 0 to |routes|
      invariant h == Highest(routes[..i])
    {
      assert routes[..i + 1][..i] == routes[..i];
      if routes[i].models != "" {
        h := i + 1;
      }
    }
    assert routes[..|routes|] == routes;
  }

  /** `m` is a model of one of the first `n` routes. */
  ghost predicate Routed(env: Env, n: nat, m: string)
    requires n <= |env.routes|
  {
    exists i :: 0 <= i < n && m in Models(env.routes[i])
  }

  /** The inner loop over one route's models. `seen` ends up holding the new ones too. */
  method CheckModels(models: seq<string>, seen: map<string, nat>, source: nat) returns (ok: bool, seen': map<string, nat>)
    ensures ok <==> "" !in models && NoRepeats(models) && forall k :: 0 <= k < |models| ==> models[k] !in seen
    ensures ok ==> forall m :: m in seen' <==> m in seen || m in models
  {
    var local: set<string> := {};
    seen' := seen;
    for k := 0 to |models|
      invariant forall m :: m in local <==> m in models[..k]
      invariant forall m :: m in seen' <==> m in seen || m in models[..k]
      invariant forall j :: 0 <= j < k ==> models[j] != "" && models[j] !in seen
      invariant NoRepeats(models[..k])
    {
      var m := models[k];
      assert models[..k + 1] == models[..k] + [m];
      if m == "" {
        return false, seen';
      }
      if m in local {
        assert exists j :: 0 <= j < k && models[j] == m;
        return false, seen';
      }
      local := local + {m};
      if m in seen' {
        return false, seen';
      }
      seen' := seen'[m := source];
    }
    assert models[..|models|] == models;
    return true, seen';
  }

  ghost predicate UrlUsed(env: Env, n: nat, u: string)
    requires n <= |env.routes|
  {
    u == env.url || exists i :: 0 <= i < n && env.routes[i].url == Some(u)
  }

  ghost predicate UnitUsed(env: Env, n: nat, u: string)
    requires n <= |env.routes|
  {
    u != "" && (u == env.unitName || exists i :: 0 <= i < n && TrimSpace(env.routes[i].unitName) == u)
  }

  /** What the three seen maps hold after `n` routes. */
  ghost predicate Seen(env: Env, n: nat, models: map<string, nat>, urls: map<string, nat>, units: map<string, nat>)
    requires n <= |env.routes|
  {
    && (forall m :: m in models <==> Routed(env, n, m))
    && (forall u :: u in urls <==> UrlUsed(env, n, u))
    && (forall u :: u in units <==> UnitUsed(env, n, u))
  }

  /** Route `i` fits with the default backend and the routes before it. */
  ghost predicate Fits(env: Env, i: nat)
    requires i < |env.routes|
  {
    var e := env.routes[i];
    && RouteOk(e)
    && Apart(e.url.value, TrimSpace(e.unitName), env.url, env.unitName)
    && forall j :: 0 <= j < i ==> PairOk(env.routes[j], e)
  }

  /** Looking the new route up in the seen maps is comparing it with everything before it. */
  lemma LookupsDecide(env: Env, i: nat, models: map<string, nat>, urls: map<string, nat>, units: map<string, nat>)
    requires i < |env.routes| && PrefixOk(env, i) && Seen(env, i, models, urls, units) && RouteOk(env.routes[i])
    ensures var e := env.routes[i];
            Fits(env, i) <==>
              && (forall k :: 0 <= k < |Models(e)| ==> Models(e)[k] !in models)
              && e.url.value !in urls && TrimSpace(e.unitName) !in units
  {
    var e := env.routes[i];
    var unit := TrimSpace(e.unitName);
    if Fits(env, i) {
      forall j | 0 <= j < i
        ensures PairOk(env.routes[j], e)
      {
      }
      forall k | 0 <= k < |Models(e)|
        ensures !Routed(env, i, Models(e)[k])
      {
      }
      assert !UrlUsed(env, i, e.url.value) && !UnitUsed(env, i, unit);
    } else if (forall k :: 0 <= k < |Models(e)| ==> Models(e)[k] !in models) && e.url.value !in urls && unit !in units {
      assert !UrlUsed(env, i, e.url.value) && !UnitUsed(env, i, unit);
      forall j | 0 <= j < i
        ensures PairOk(env.routes[j], e)
      {
        forall k | 0 <= k < |Models(e)|
          ensures Models(e)[k] !in Models(env.routes[j])
        {
          assert !Routed(env, i, Models(e)[k]);
        }
      }
    }
  }

  lemma FittingExtendsPrefix(env: Env, i: nat)
    requires i < |env.routes| && PrefixOk(env, i)
    ensures Fits(env, i) <==> PrefixOk(env, i + 1)
  {
  }

  /** One pass of the route loop: false where it returns an error. */
  method CheckRoute(env: Env, i: nat, models: map<string, nat>, urls: map<string, nat>, units: map<string, nat>)
    returns (ok: bool, models': map<string, nat>, urls': map<string, nat>, units': map<string, nat>)
    requires i < |env.routes| && PrefixOk(env, i) && Seen(env, i, models, urls, units)
    ensures ok <==> Fits(env, i)
    ensures ok ==> Seen(env, i + 1, models', urls', units')
  {
    var e := env.routes[i];
    models', urls', units' := models, urls, units;
    if e.models == "" {
      return false, models', urls', units';
    }
    ok, models' := CheckModels(Models(e), models, i + 1);
    var unit := TrimSpace(e.unitName);
    if RouteOk(e) {
      LookupsDecide(env, i, models, urls, units);
    }
    if !ok
       || (e.backend != "ollama" && e.backend != "openai")
       || e.url.None? || e.url.value in urls || HasBreak(e.apiKey)
       || (unit != "" && unit in units)
       || e.idle.None? || e.idle.value < 0 || (e.idle.value != 0 && unit == "")
       || (e.lane != "" && e.lane != "interactive" && e.lane != "batch") {
      return false, models', urls', units';
    }
    urls' := urls[e.url.value := i + 1];
    if unit != "" {
      units' := units[unit := i + 1];
    }
    SeenGrows(env, i, models, urls, units, models', urls', units');
  }

  lemma SeenGrows(env: Env, i: nat, models: map<string, nat>, urls: map<string, nat>, units: map<string, nat>,
                  models': map<string, nat>, urls': map<string, nat>, units': map<string, nat>)
    requires i < |env.routes| && Seen(env, i, models, urls, units) && env.routes[i].url.Some?
    requires forall m :: m in models' <==> m in models || m in Models(env.routes[i])
    requires forall u :: u in urls' <==> u in urls || u == env.routes[i].url.value
    requires forall u :: u in units' <==> u in units || (u != "" && u == TrimSpace(env.routes[i].unitName))
    ensures Seen(env, i + 1, models', urls', units')
  {
    forall m
      ensures Routed(env, i + 1, m) <==> Routed(env, i, m) || m in Models(env.routes[i])
    {
    }
    forall u
      ensures UrlUsed(env, i + 1, u) <==> UrlUsed(env, i, u) || env.routes[i].url == Some(u)
    {
    }
    forall u
      ensures UnitUsed(env, i + 1, u) <==> UnitUsed(env, i, u) || (u != "" && u == TrimSpace(env.routes[i].unitName))
    {
    }
  }

  /** Load, as far as routes and idle timeouts go: it accepts exactly the acceptable environments. */
  method Load(env: Env) returns (r: Option<Configuration>)
    ensures r.Some? <==> Acceptable(env)
    ensures r.Some? ==>
              && r.value.family == env.family && r.value.unitName == env.unitName && r.value.idle == env.idle
              && |r.value.routes| == Highest(env.routes)
              && forall i :: 0 <= i < |r.value.routes| ==> r.value.routes[i] == ToRoute(env.routes[i])
    ensures r.Some? ==> forall i :: 0 <= i < |r.value.routes| ==> Reads(env.routes[i], r.value.routes[i])
    ensures r.Some? ==> Unambiguous(r.value, env.url)
  {
    if env.idle < 0 || (env.idle != 0 && env.unitName == "") {
      return None;
    }
    var highest := FindHighest(env.routes);
    if highest > MAX_ROUTES {
      return None;
    }
    var models: map<string, nat> := map[];
    var urls: map<string, nat> := map[env.url := 0];
    var units: map<string, nat> := if env.unitName != "" then map[env.unitName := 0] else map[];
    var routes: seq<Route> := [];
    for i := 0 to highest
      invariant PrefixOk(env, i) && Seen(env, i, models, urls, units)
      invariant |routes| == i && forall k :: 0 <= k < i ==> routes[k] == ToRoute(env.routes[k])
    {
      var ok;
      FittingExtendsPrefix(env, i);
      ok, models, urls, units := CheckRoute(env, i, models, urls, units);
      if !ok {
        PrefixFails(env, i + 1, highest);
        return None;
      }
      routes := routes + [ToRoute(env.routes[i])];
    }
    forall i | 0 <= i < highest
      ensures Reads(env.routes[i], routes[i])
    {
      RouteReads(env.routes[i]);
    }
    AcceptedIsUnambiguous(env, Configuration(env.family, env.unitName, env.idle, routes));
    return Some(Configuration(env.family, env.unitName, env.idle, routes));
  }
}
