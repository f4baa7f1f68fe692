/**
 Whole lives of the jobs table: any sequence of transactions, with crashes in between. Beside
 the table runs an abstract double-ended queue, and a count of what happened to each job.
 */
module JobRuns {
  import opened Wrappers
  import opened JobTable
  import opened JobDeque
  import opened Slices

  /** How often a job was claimed and preempted, and whether Succeed or Cancel took it out of RUNNING. */
  datatype Life = Life(claims: nat, preempts: nat, ended: bool)

  /** `pushes` counts the insertions into the line at either end. */
  datatype Sys = Sys(t: Table, line: seq<Id>, life: map<Id, Life>, pushes: nat, maxAttempts: int)

  datatype Event =
    | Submit(id: Id, key: string, payload: string, created: int)
    | ClaimNext(id: Id, now: int)
    | Finish(id: Id, result: string, now: int)
    | Yield(id: Id)
    | Fail(id: Id, msg: string, now: int)
    | CancelJob(id: Id, now: int)
    | Sweep(recs: seq<Id>, now: int)   // a restart: everything but the table is forgotten
    | Discard(dead: set<Id>)

  ghost predicate Enabled(s: Sys, e: Event) {
    match e
    case Submit(id, _, _, _) => id !in s.life
    case ClaimNext(id, _) => IsHead(s.t, id)
    case Sweep(recs, _) => IsSweep(s.t, recs)
    case Discard(dead) => forall id :: id in dead ==> id in s.t && s.t[id].state.Terminal()
    case _ => true
  }

  ghost function Retries(s: Sys, id: Id): bool {
    IsRunning(s.t, id) && s.t[id].attempts + 1 < s.maxAttempts
  }

  /** What each transaction means for the line. */
  ghost function NextLine(s: Sys, e: Event): (q: seq<Id>)
    requires Enabled(s, e)
  {
    match e
    case Submit(id, key, _, _) => if KeyTaken(s.t, key) then s.line else s.line + [id]
    case ClaimNext(_, _) => if s.line == [] then [] else s.line[1..]
    case Yield(id) => if IsRunning(s.t, id) then [id] + s.line else s.line
    case Fail(id, _, _) => if Retries(s, id) then [id] + s.line else s.line
    case CancelJob(id, _) => if IsQueued(s.t, id) then Without(s.line, id) else s.line
    case Sweep(recs, _) => Reverse(Survivors(s.t, recs, s.maxAttempts)) + s.line
    case _ => s.line
  }

  ghost function NextTable(s: Sys, e: Event): (t: Table)
    requires Enabled(s, e)
  {
    match e
    case Submit(id, key, payload, created) => if KeyTaken(s.t, key) then s.t else Insert(s.t, id, key, payload, created)
    case ClaimNext(id, now) => Claim(s.t, id, now)
    case Finish(id, result, now) => Succeed(s.t, id, result, now)
    case Yield(id) => Preempt(s.t, id)
    case Fail(id, msg, now) => FailOrRetry(s.t, id, msg, s.maxAttempts, now)
    case CancelJob(id, now) => Cancel(s.t, id, now)
    case Sweep(recs, now) => RecoverAll(s.t, recs, s.maxAttempts, now)
    case Discard(dead) => Prune(s.t, dead)
  }

  function LifeOf(s: Sys, id: Id): (l: Life) {
    if id in s.life then s.life[id] else Life(0, 0, false)
  }

  ghost function NextLife(s: Sys, e: Event): (life: map<Id, Life>)
    requires Enabled(s, e)
  {
    match e
    case Submit(id, key, _, _) => if KeyTaken(s.t, key) then s.life else s.life[id := Life(0, 0, false)]
    case ClaimNext(id, _) => s.life[id := LifeOf(s, id).(claims := LifeOf(s, id).claims + 1)]
    case Finish(id, _, _) => if IsRunning(s.t, id) then s.life[id := LifeOf(s, id).(ended := true)] else s.life
    case Yield(id) => if IsRunning(s.t, id) then s.life[id := LifeOf(s, id).(preempts := LifeOf(s, id).preempts + 1)] else s.life
    case CancelJob(id, _) => if IsRunning(s.t, id) then s.life[id := LifeOf(s, id).(ended := true)] else s.life
    case _ => s.life
  }

  ghost function NextPushes(s: Sys, e: Event): (n: nat)
    requires Enabled(s, e)
  {
    match e
    case Submit(_, key, _, _) => if KeyTaken(s.t, key) then s.pushes else s.pushes + 1
    case Yield(id) => if IsRunning(s.t, id) then s.pushes + 1 else s.pushes
    case Fail(id, _, _) => if Retries(s, id) then s.pushes + 1 else s.pushes
    case Sweep(recs, _) => s.pushes + |Survivors(s.t, recs, s.maxAttempts)|
    case _ => s.pushes
  }

  ghost function Next(s: Sys, e: Event): (s': Sys)
    requires Enabled(s, e)
  {
    Sys(NextTable(s, e), NextLine(s, e), NextLife(s, e), NextPushes(s, e), s.maxAttempts)
  }

  // ----- the invariant -----

  /** The attempt accounting of one job. */
  predicate LifeOk(r: Row, l: Life, maxAttempts: int) {
    && l.claims == l.preempts + r.attempts + (if r.state == Running || l.ended then 1 else 0)
    && 0 <= r.attempts <= maxAttempts
    && (!r.state.Terminal() ==> r.attempts < maxAttempts)
    && (r.state == Failed ==> r.attempts == maxAttempts)
    && (r.state != Failed ==> r.attempts < maxAttempts)
    && (l.ended ==> r.state == Succeeded || r.state == Canceled)
    && (r.state == Succeeded ==> l.ended)
  }

  ghost predicate LivesOk(s: Sys) {
    && s.t.Keys <= s.life.Keys
    && forall id :: id in s.t ==> LifeOk(s.t[id], s.life[id], s.maxAttempts)
  }

  ghost predicate HintsBounded(t: Table, k: int) {
    forall id :: id in t ==> -k <= t[id].hint <= k
  }

  ghost predicate KeysUnique(t: Table) {
    forall a, b :: a in t && b in t && t[a].key == t[b].key ==> a == b
  }

  ghost predicate Inv(s: Sys) {
    && 1 <= s.maxAttempts
    && Line(s.t, s.line) && LivesOk(s) && HintsBounded(s.t, s.pushes) && KeysUnique(s.t)
  }

  /** Each transaction does to the rows what the double-ended queue operation does to the line. */
  lemma LineFollows(s: Sys, e: Event)
    requires Enabled(s, e) && Line(s.t, s.line) && s.t.Keys <= s.life.Keys
    ensures Line(NextTable(s, e), NextLine(s, e))
  {
    var t' := NextTable(s, e);
    match e
    case Submit(id, key, payload, created) =>
      if !KeyTaken(s.t, key) {
        SubmitPushesBack(s.t, s.line, id, key, payload, created);
      }
    case ClaimNext(id, now) => ClaimPopsFront(s.t, s.line, id, now);
    case Finish(id, _, _) =>
      if IsRunning(s.t, id) { OffLineKeepsLine(s.t, s.line, id, t'[id]); }
    case Yield(id) =>
      if IsRunning(s.t, id) { FrontHintPushesFront(s.t, s.line, id, t'[id]); }
    case Fail(id, _, _) =>
      if Retries(s, id) { FrontHintPushesFront(s.t, s.line, id, t'[id]); }
      else if IsRunning(s.t, id) { OffLineKeepsLine(s.t, s.line, id, t'[id]); }
    case CancelJob(id, _) =>
      if IsQueued(s.t, id) { LeavesLine(s.t, s.line, id, t'[id]); }
      else if IsRunning(s.t, id) { OffLineKeepsLine(s.t, s.line, id, t'[id]); }
    case Sweep(recs, now) => SweepReversesSurvivors(s.t, s.line, recs, s.maxAttempts, now);
    case Discard(_) =>
  }

  lemma LivesFollow(s: Sys, e: Event)
    requires Enabled(s, e) && LivesOk(s) && 1 <= s.maxAttempts
    ensures LivesOk(Next(s, e))
  {
    if e.Sweep? {
      SweepCharges(s.t, e.recs, s.maxAttempts, e.now);
      forall id | id in s.t
        ensures LifeOk(NextTable(s, e)[id], s.life[id], s.maxAttempts)
      {
        if id in e.recs {
          assert Charged(s.t[id], NextTable(s, e)[id], s.maxAttempts);
        }
      }
    }
  }

  lemma KeysFollow(s: Sys, e: Event)
    requires Enabled(s, e) && KeysUnique(s.t) && s.t.Keys <= s.life.Keys
    ensures KeysUnique(NextTable(s, e))
  {
    if e.Sweep? {
      SweepCharges(s.t, e.recs, s.maxAttempts, e.now);
      assert forall id :: id in s.t ==> NextTable(s, e)[id].key == s.t[id].key;
    }
  }

  lemma BackHintBounded(t: Table, k: int)
    requires 0 <= k && HintsBounded(t, k)
    ensures -k - 1 <= BackHint(t) <= k + 1
  {
    if Hints(t) != {} {
      var m := MaxOf(Hints(t));
      var id :| id in t && t[id].hint == m;
    }
  }

  lemma FrontHintBounded(t: Table, k: int)
    requires 0 <= k && HintsBounded(t, k)
    ensures -k - 1 <= FrontHint(t) <= k + 1
  {
    if QueuedHints(t) != {} {
      var m := MinOf(QueuedHints(t));
      var id :| id in t && t[id].state == Queued && t[id].hint == m;
    }
  }

  lemma {:induction false} SweepHintsBounded(t: Table, recs: seq<Id>, k: nat, maxAttempts: int, now: int)
    requires HintsBounded(t, k)
    requires forall id :: id in recs ==> id in t && t[id].state == Running
    requires forall i, j :: 0 <= i < j < |recs| ==> recs[i] != recs[j]
    ensures HintsBounded(RecoverAll(t, recs, maxAttempts, now), k + |Survivors(t, recs, maxAttempts)|)
    decreases |recs|
  {
    if recs != [] {
      assert recs[0] in recs;
      var t1 := RecoverOne(t, recs[0], maxAttempts, now);
      FrontHintBounded(t, k);
      SurvivorsFrame(t, t1, recs[1..], maxAttempts);
      SweepHintsBounded(t1, recs[1..], if t[recs[0]].attempts + 1 < maxAttempts then k + 1 else k, maxAttempts, now);
    }
  }

  lemma HintsFollow(s: Sys, e: Event)
    requires Enabled(s, e) && HintsBounded(s.t, s.pushes) && s.t.Keys <= s.life.Keys
    ensures HintsBounded(NextTable(s, e), NextPushes(s, e))
  {
    BackHintBounded(s.t, s.pushes);
    FrontHintBounded(s.t, s.pushes);
    if e.Sweep? {
      SweepHintsBounded(s.t, e.recs, s.pushes, s.maxAttempts, e.now);
    }
  }

  lemma NextKeepsInv(s: Sys, e: Event)
    requires Inv(s) && Enabled(s, e)
    ensures Inv(Next(s, e))
  {
    LineFollows(s, e);
    LivesFollow(s, e);
    KeysFollow(s, e);
    HintsFollow(s, e);
  }

  ghost predicate CanRun(s: Sys, es: seq<Event>)
    decreases |es|
  {
    es == [] || (Enabled(s, es[0]) && CanRun(Next(s, es[0]), es[1..]))
  }

  ghost function Run(s: Sys, es: seq<Event>): (s': Sys)
    requires CanRun(s, es)
    decreases |es|
  {
    if es == [] then s else Run(Next(s, es[0]), es[1..])
  }

  function Init(maxAttempts: int): (s: Sys) {
    Sys(map[], [], map[], 0, maxAttempts)
  }

  lemma {:induction false} RunKeepsInv(s: Sys, es: seq<Event>)
    requires Inv(s) && CanRun(s, es)
    ensures Inv(Run(s, es)) && Run(s, es).maxAttempts == s.maxAttempts
    decreases |es|
  {
    if es != [] {
      NextKeepsInv(s, es[0]);
      RunKeepsInv(Next(s, es[0]), es[1..]);
    }
  }

  // ----- what holds over whole runs -----

  /**
   The rows are a double-ended queue over every run: the queued jobs in claim order are the
   line, Position is the place in it, and no hint has left [-k, k] after k insertions.
   */
  lemma TableIsDeque(maxAttempts: int, es: seq<Event>)
    requires 1 <= maxAttempts && CanRun(Init(maxAttempts), es)
    ensures var s := Run(Init(maxAttempts), es);
            && Line(s.t, s.line)
            && (forall id :: IsHead(s.t, id) <==> s.line != [] && id == s.line[0])
            && (forall k :: 0 <= k < |s.line| ==> Position(s.t, s.line[k]) == Some(k + 1))
            && HintsBounded(s.t, s.pushes)
            && KeysUnique(s.t)
  {
    var s := Run(Init(maxAttempts), es);
    RunKeepsInv(Init(maxAttempts), es);
    forall id
      ensures IsHead(s.t, id) <==> s.line != [] && id == s.line[0]
    {
      ClaimPopsFront(s.t, s.line, id, 0);
    }
    forall k | 0 <= k < |s.line|
      ensures Position(s.t, s.line[k]) == Some(k + 1)
    {
      PositionIsPlaceInLine(s.t, s.line, k);
    }
  }

  /**
   Position reads the job's row and then counts, and other transactions may commit in between.
   What it returns is the place the row read would have in the line as it is at the count, and
   the job's own place if its row has not changed meanwhile.
   */
  lemma PositionAcrossCommits(s: Sys, es: seq<Event>, id: Id)
    requires Inv(s) && IsQueued(s.t, id) && CanRun(s, es)
    ensures var row, s' := s.t[id], Run(s, es);
            var n := |AheadOf(s'.t, row)|;
            && n <= |s'.line|
            && (forall j :: 0 <= j < |s'.line| ==> s'.line[j] in s'.t && (Before(s'.t[s'.line[j]], row) <==> j < n))
            && (id in s'.t && s'.t[id] == row ==> n < |s'.line| && s'.line[n] == id)
  {
    var row, s' := s.t[id], Run(s, es);
    RunKeepsInv(s, es);
    AheadIsPrefix(s'.t, s'.line, row);
    if id in s'.t && s'.t[id] == row {
      var k := PlaceOfQueued(s'.t, s'.line, id);
    }
  }

  /** Runs that were not preempted number at most `maxAttempts`, restarts included. */
  lemma AttemptsAccounted(maxAttempts: int, es: seq<Event>, id: Id)
    requires 1 <= maxAttempts && CanRun(Init(maxAttempts), es) && id in Run(Init(maxAttempts), es).t
    ensures var s := Run(Init(maxAttempts), es);
            var r, l := s.t[id], LifeOf(s, id);
            && l.claims == l.preempts + r.attempts + (if r.state == Running || l.ended then 1 else 0)
            && l.claims - l.preempts <= maxAttempts
            && (!r.state.Terminal() ==> r.attempts < maxAttempts)
            && (r.state == Failed <==> r.attempts == maxAttempts)
  {
    RunKeepsInv(Init(maxAttempts), es);
  }

  lemma TerminalStays(s: Sys, e: Event, id: Id)
    requires LivesOk(s) && Enabled(s, e) && id in s.life
    requires id !in s.t || s.t[id].state.Terminal()
    ensures var s' := Next(s, e);
            id in s'.life && (id !in s'.t || (id in s.t && s'.t[id] == s.t[id]))
  {
    if e.Sweep? {
      SweepCharges(s.t, e.recs, s.maxAttempts, e.now);
    }
  }

  /** A terminal row never changes again; all that can happen to it is to be pruned. */
  lemma {:induction false} TerminalIsFinal(s: Sys, es: seq<Event>, id: Id)
    requires Inv(s) && CanRun(s, es) && id in s.life
    requires id !in s.t || s.t[id].state.Terminal()
    ensures id !in Run(s, es).t || (id in s.t && Run(s, es).t[id] == s.t[id])
    decreases |es|
  {
    if es != [] {
      NextKeepsInv(s, es[0]);
      TerminalStays(s, es[0], id);
      TerminalIsFinal(Next(s, es[0]), es[1..], id);
    }
  }

  /** Whatever transactions follow a Cancel that found the job alive, the job stays canceled. */
  lemma CancelIsFinal(s: Sys, es: seq<Event>, id: Id, now: int)
    requires Inv(s) && id in s.t && !s.t[id].state.Terminal() && CanRun(Next(s, CancelJob(id, now)), es)
    ensures var t' := Run(Next(s, CancelJob(id, now)), es).t;
            id !in t' || t'[id] == s.t[id].(state := Canceled, finished := Some(now))
  {
    NextKeepsInv(s, CancelJob(id, now));
    TerminalIsFinal(Next(s, CancelJob(id, now)), es, id);
  }

  // ----- the restart sweep -----

  ghost predicate NewestFirst(t: Table, q: seq<Id>) {
    forall j, k :: 0 <= j < k < |q| ==> q[j] in t && q[k] in t && t[q[j]].created > t[q[k]].created
  }

  lemma {:induction false} ReverseFlips(s: seq<Id>)
    ensures |Reverse(s)| == |s| && forall k :: 0 <= k < |s| ==> Reverse(s)[k] == s[|s| - 1 - k]
  {
    if s != [] {
      ReverseFlips(s[1..]);
    }
  }

  /** Created order, as far as creation times tell. */
  ghost predicate CreatedOrder(t: Table, q: seq<Id>) {
    forall j, k :: 0 <= j < k < |q| ==> q[j] in t && q[k] in t && t[q[j]].created <= t[q[k]].created
  }

  ghost predicate CreatedTogether(t: Table, q: seq<Id>) {
    forall j, k :: 0 <= j < k < |q| ==> q[j] in t && q[k] in t && t[q[j]].created == t[q[k]].created
  }

  ghost predicate CreatedApart(t: Table, q: seq<Id>) {
    forall j, k :: 0 <= j < k < |q| ==> q[j] in t && q[k] in t && t[q[j]].created != t[q[k]].created
  }

  lemma {:induction false} SurvivorsInOrder(t: Table, recs: seq<Id>, maxAttempts: int)
    requires CreatedOrder(t, recs) && forall id :: id in recs ==> id in t
    ensures CreatedOrder(t, Survivors(t, recs, maxAttempts))
    ensures forall k :: 0 <= k < |Survivors(t, recs, maxAttempts)| ==> Survivors(t, recs, maxAttempts)[k] in recs
    decreases |recs|
  {
    if recs != [] {
      SurvivorsInOrder(t, recs[1..], maxAttempts);
      var rest := Survivors(t, recs[1..], maxAttempts);
      forall k | 0 <= k < |rest|
        ensures rest[k] in t && t[recs[0]].created <= t[rest[k]].created
      {
        assert rest[k] in recs[1..];
        var j :| 0 <= j < |recs[1..]| && recs[1..][j] == rest[k];
        assert recs[1..][j] == recs[j + 1];
      }
    }
  }

  /** Turning a created order round spoils it, unless all of it was created together. */
  lemma ReversedOrderIff(t: Table, v: seq<Id>)
    requires CreatedOrder(t, v)
    ensures CreatedOrder(t, Reverse(v)) <==> CreatedTogether(t, v)
  {
    ReverseFlips(v);
    var n := |v|;
    if CreatedOrder(t, Reverse(v)) {
      forall j, k | 0 <= j < k < n
        ensures t[v[j]].created == t[v[k]].created
      {
        assert Reverse(v)[n - 1 - k] == v[k] && Reverse(v)[n - 1 - j] == v[j];
      }
    }
  }

  /** And makes it newest first iff no two were created at one time. */
  lemma ReversedNewestIff(t: Table, v: seq<Id>)
    requires CreatedOrder(t, v)
    ensures NewestFirst(t, Reverse(v)) <==> CreatedApart(t, v)
  {
    ReverseFlips(v);
    var n := |v|;
    if NewestFirst(t, Reverse(v)) {
      forall j, k | 0 <= j < k < n
        ensures t[v[j]].created != t[v[k]].created
      {
        assert Reverse(v)[n - 1 - k] == v[k] && Reverse(v)[n - 1 - j] == v[j];
      }
    }
  }

  lemma SweepLeavesNone(s: Sys, recs: seq<Id>, now: int)
    requires IsSweep(s.t, recs)
    ensures var t' := RecoverAll(s.t, recs, s.maxAttempts, now);
            t'.Keys == s.t.Keys && forall id :: !IsRunning(t', id)
  {
    SweepCharges(s.t, recs, s.maxAttempts, now);
    var t' := RecoverAll(s.t, recs, s.maxAttempts, now);
    forall id | id in t'
      ensures t'[id].state != Running
    {
      if id in recs {
        assert Charged(s.t[id], t'[id], s.maxAttempts);
      }
    }
  }

  lemma SweptFrontOrder(t: Table, recs: seq<Id>, maxAttempts: int)
    requires IsSweep(t, recs)
    ensures var v := Survivors(t, recs, maxAttempts);
            && (CreatedOrder(t, Reverse(v)) <==> CreatedTogether(t, v))
            && (NewestFirst(t, Reverse(v)) <==> CreatedApart(t, v))
  {
    SurvivorsInOrder(t, recs, maxAttempts);
    ReversedOrderIff(t, Survivors(t, recs, maxAttempts));
    ReversedNewestIff(t, Survivors(t, recs, maxAttempts));
  }

  /**
   A restart leaves no job running, keeps every job and the order of those already queued, and
   puts the survivors in front of them in reverse: in the created order the comment in the source
   speaks of iff all of them were created at one time, newest first iff no two of them were.
   */
  lemma RestartOrder(s: Sys, recs: seq<Id>, now: int)
    requires Inv(s) && IsSweep(s.t, recs)
    ensures var s' := Next(s, Sweep(recs, now));
            var v := Survivors(s.t, recs, s.maxAttempts);
            && (forall id :: !IsRunning(s'.t, id))
            && s'.t.Keys == s.t.Keys
            && s'.line == Reverse(v) + s.line && Line(s'.t, s'.line)
            && (CreatedOrder(s.t, Reverse(v)) <==> CreatedTogether(s.t, v))
            && (NewestFirst(s.t, Reverse(v)) <==> CreatedApart(s.t, v))
  {
    NextKeepsInv(s, Sweep(recs, now));
    SweepLeavesNone(s, recs, now);
    SweptFrontOrder(s.t, recs, s.maxAttempts);
  }
}
