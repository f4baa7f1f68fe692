/**
 The jobs table and its transactions. The pool has one connection, so each transaction is one
 atomic function from table to table.
 */
module JobTable {
  import opened Wrappers

  /** UUIDs; only ever compared for equality. */
  type Id = nat

  datatype State = Queued | Running | Succeeded | Failed | Canceled {
    predicate Terminal() {
      Succeeded? || Failed? || Canceled?
    }
  }

  datatype Row = Row(
    key: string,
    payload: string,
    state: State,
    attempts: int,
    result: string,
    error: string,
    hint: int,
    created: int,
    started: Option<int>,
    finished: Option<int>)

  type Table = map<Id, Row>

  datatype StoreError = NotFound | AlreadyTerminal | Duplicate

  // ----- the aggregates the statements use -----

  ghost function AnyOf<T>(s: set<T>): (x: T)
    requires s != {}
    ensures x in s
  {
    var x :| x in s;
    x
  }

  ghost function MaxOf(s: set<int>): (m: int)
    requires s != {}
    ensures m in s && forall x :: x in s ==> x <= m
  {
    var x := AnyOf(s);
    if s == {x} then x
    else
      assert s == (s - {x}) + {x};
      var m := MaxOf(s - {x});
      if x > m then x else m
  }

  ghost function MinOf(s: set<int>): (m: int)
    requires s != {}
    ensures m in s && forall x :: x in s ==> m <= x
  {
    var x := AnyOf(s);
    if s == {x} then x
    else
      assert s == (s - {x}) + {x};
      var m := MinOf(s - {x});
      if x < m then x else m
  }

  function Hints(t: Table): (r: set<int>) {
    set id | id in t :: t[id].hint
  }

  function QueuedHints(t: Table): (r: set<int>) {
    set id | id in t && t[id].state == Queued :: t[id].hint
  }

  /** `COALESCE(MAX(position_hint), 0) + 1` over every row. */
  ghost function BackHint(t: Table): (h: int) {
    (if Hints(t) == {} then 0 else MaxOf(Hints(t))) + 1
  }

  /** `COALESCE(MIN(position_hint), 0) - 1` over the queued rows. */
  ghost function FrontHint(t: Table): (h: int) {
    (if QueuedHints(t) == {} then 0 else MinOf(QueuedHints(t))) - 1
  }

  lemma HintBounds(t: Table)
    ensures forall id :: id in t ==> t[id].hint < BackHint(t)
    ensures forall id :: id in t && t[id].state == Queued ==> FrontHint(t) < t[id].hint
  {
    forall id | id in t
      ensures t[id].hint in Hints(t) && (t[id].state == Queued ==> t[id].hint in QueuedHints(t))
    {
    }
  }

  // ----- the transactions -----

  ghost predicate KeyTaken(t: Table, key: string) {
    exists id :: id in t && t[id].key == key
  }

  function NewRow(key: string, payload: string, created: int, hint: int): (r: Row) {
    Row(key, payload, Queued, 0, "", "", hint, created, None, None)
  }

  /** The insert of Submit, once the key is known to be new. */
  ghost function Insert(t: Table, id: Id, key: string, payload: string, created: int): (t': Table) {
    t[id := NewRow(key, payload, created, BackHint(t))]
  }

  /** `ORDER BY position_hint ASC, created_at ASC`. */
  predicate Before(a: Row, b: Row) {
    a.hint < b.hint || (a.hint == b.hint && a.created < b.created)
  }

  predicate IsQueued(t: Table, id: Id) {
    id in t && t[id].state == Queued
  }

  /** A row ClaimNext may pick. */
  ghost predicate IsHead(t: Table, id: Id) {
    IsQueued(t, id) && forall x :: IsQueued(t, x) ==> !Before(t[x], t[id])
  }

  function Claim(t: Table, id: Id, now: int): (t': Table)
    requires id in t
  {
    t[id := t[id].(state := Running, started := Some(now), error := "")]
  }

  predicate IsRunning(t: Table, id: Id) {
    id in t && t[id].state == Running
  }

  function Succeed(t: Table, id: Id, result: string, now: int): (t': Table) {
    if IsRunning(t, id) then t[id := t[id].(state := Succeeded, result := result, finished := Some(now), error := "")] else t
  }

  ghost function Preempt(t: Table, id: Id): (t': Table) {
    if IsRunning(t, id) then t[id := t[id].(state := Queued, started := None, hint := FrontHint(t))] else t
  }

  /** The two updates shared by FailOrRetry and RecoverRunning; RecoverRunning keeps the old error on a requeue. */
  ghost function Charge(t: Table, id: Id, failMsg: string, retryMsg: string, maxAttempts: int, now: int): (t': Table)
    requires id in t
  {
    var attempts := t[id].attempts + 1;
    if attempts >= maxAttempts
    then t[id := t[id].(state := Failed, attempts := attempts, error := failMsg, finished := Some(now))]
    else t[id := t[id].(state := Queued, attempts := attempts, error := retryMsg, started := None, hint := FrontHint(t))]
  }

  ghost function FailOrRetry(t: Table, id: Id, msg: string, maxAttempts: int, now: int): (t': Table) {
    if IsRunning(t, id) then Charge(t, id, msg, msg, maxAttempts, now) else t
  }

  function Cancel(t: Table, id: Id, now: int): (t': Table) {
    if id in t && !t[id].state.Terminal() then t[id := t[id].(state := Canceled, finished := Some(now))] else t
  }

  const RESTART_MSG := "exceeded attempts after restart"

  ghost function RecoverOne(t: Table, id: Id, maxAttempts: int, now: int): (t': Table)
    requires id in t
  {
    Charge(t, id, RESTART_MSG, t[id].error, maxAttempts, now)
  }

  /** What the sweep's SELECT returns: every running row once, oldest first; ties in any order. */
  ghost predicate IsSweep(t: Table, recs: seq<Id>) {
    && (forall id :: id in recs <==> id in t && t[id].state == Running)
    && (forall j, k :: 0 <= j < k < |recs| ==> recs[j] != recs[k])
    && (forall j, k :: 0 <= j < k < |recs| ==> recs[j] in t && recs[k] in t && t[recs[j]].created <= t[recs[k]].created)
  }

  /** The sweep's loop over the rows it selected. */
  ghost function RecoverAll(t: Table, recs: seq<Id>, maxAttempts: int, now: int): (t': Table)
    requires forall id :: id in recs ==> id in t
  {
    if recs == [] then t else RecoverAll(RecoverOne(t, recs[0], maxAttempts, now), recs[1..], maxAttempts, now)
  }

  /** The rows Position counts ahead of the row it has read. */
  function AheadOf(t: Table, row: Row): (r: set<Id>) {
    set x | x in t && t[x].state == Queued && Before(t[x], row)
  }

  /** Position, when nothing commits between its two statements. */
  function Position(t: Table, id: Id): (p: Option<nat>) {
    if id !in t then None
    else if t[id].state != Queued then Some(0)
    else Some(|AheadOf(t, t[id])| + 1)
  }

  /** Only row `id` may differ. */
  ghost predicate SameElsewhere(t: Table, t': Table, id: Id) {
    t'.Keys == t.Keys && forall x :: x in t && x != id ==> t'[x] == t[x]
  }

  /** Prune deletes some terminal rows; which ones depends on the clock. */
  function Prune(t: Table, dead: set<Id>): (t': Table)
    ensures forall id :: id in t' <==> id in t && id !in dead
    ensures forall id :: id in t' ==> t'[id] == t[id]
  {
    t - dead
  }
}

/** The hint column makes the queued rows a double-ended queue. */
module JobDeque {
  import opened Slices
  import opened Wrappers
  import opened JobTable

  ghost predicate Rising(t: Table, q: seq<Id>) {
    forall j, k :: 0 <= j < k < |q| ==> q[j] in t && q[k] in t && t[q[j]].hint < t[q[k]].hint
  }

  /** `q` is the line: exactly the queued jobs, with strictly rising hints. */
  ghost predicate Line(t: Table, q: seq<Id>) {
    && (forall id :: id in q <==> id in t && t[id].state == Queued)
    && Rising(t, q)
  }

  lemma SubmitPushesBack(t: Table, q: seq<Id>, id: Id, key: string, payload: string, created: int)
    requires Line(t, q) && id !in t
    ensures Line(Insert(t, id, key, payload, created), q + [id])
  {
    HintBounds(t);
  }

  /** A row that is not queued joins the line at the front once its hint is FrontHint. */
  lemma FrontHintPushesFront(t: Table, q: seq<Id>, id: Id, row: Row)
    requires Line(t, q) && id in t && t[id].state != Queued
    requires row.state == Queued && row.hint == FrontHint(t)
    ensures Line(t[id := row], [id] + q)
  {
    HintBounds(t);
  }

  /** A row that is not queued, before or after, leaves the line alone. */
  lemma OffLineKeepsLine(t: Table, q: seq<Id>, id: Id, row: Row)
    requires Line(t, q) && id in t && t[id].state != Queued && row.state != Queued
    ensures Line(t[id := row], q)
  {
  }

  lemma RisingWithout(t: Table, q: seq<Id>, id: Id, i: nat, row: Row)
    requires Rising(t, q) && i < |q| && q[i] == id && forall j :: 0 <= j < |q| && j != i ==> q[j] != id
    requires forall j :: 0 <= j < |q| ==> q[j] in t
    ensures Rising(t[id := row], RemoveAt(q, i))
  {
    RemoveAtIndex(q, i);
  }

  /** A row that stops being queued leaves the line, wherever it stood. */
  lemma LeavesLine(t: Table, q: seq<Id>, id: Id, row: Row)
    requires Line(t, q) && IsQueued(t, id) && row.state != Queued
    ensures Line(t[id := row], Without(q, id))
  {
    assert id in q;
    var i :| 0 <= i < |q| && q[i] == id;
    assert forall j :: 0 <= j < |q| && j != i ==> q[j] != id;
    WithoutOnly(q, id, i);
    RisingWithout(t, q, id, i, row);
  }

  /** ClaimNext takes the front of the line, and finds nothing exactly when the line is empty. */
  lemma ClaimPopsFront(t: Table, q: seq<Id>, id: Id, now: int)
    requires Line(t, q)
    ensures IsHead(t, id) <==> q != [] && id == q[0]
    ensures IsHead(t, id) ==> Line(Claim(t, id, now), q[1..])
  {
    if IsQueued(t, id) {
      var i :| 0 <= i < |q| && q[i] == id;
      if i > 0 {
        assert q[0] in q && Before(t[q[0]], t[id]);
      }
      assert forall x :: IsQueued(t, x) ==> x in q;
      if i == 0 {
        LeavesLine(t, q, id, t[id].(state := Running, started := Some(now), error := ""));
      }
    } else if q != [] {
      assert q[0] in q;
    }
  }

  /** The rows before a given row are the first so many of the line. */
  lemma AheadIsPrefix(t: Table, q: seq<Id>, row: Row)
    requires Line(t, q)
    ensures var n := |AheadOf(t, row)|;
            n <= |q| && forall j :: 0 <= j < |q| ==> q[j] in t && (Before(t[q[j]], row) <==> j < n)
  {
    var m := 0;
    while m < |q| && Before(t[q[m]], row)
      invariant 0 <= m <= |q|
      invariant forall j :: 0 <= j < m ==> q[j] in t && Before(t[q[j]], row)
      invariant forall j :: 0 <= j < |q| ==> q[j] in q && q[j] in t
    {
      m := m + 1;
    }
    assert forall j :: m < j < |q| ==> t[q[m]].hint < t[q[j]].hint;
    assert forall j :: 0 <= j < |q| ==> (Before(t[q[j]], row) <==> j < m);
    PrefixHolds(t, q, row, m);
  }

  lemma PrefixHolds(t: Table, q: seq<Id>, row: Row, m: nat)
    requires Line(t, q) && m <= |q|
    requires forall j :: 0 <= j < |q| ==> q[j] in t && (Before(t[q[j]], row) <==> j < m)
    ensures |AheadOf(t, row)| == m
  {
    var ahead := Elems(q[..m]);
    forall x | x in AheadOf(t, row)
      ensures x in ahead
    {
      assert x in q;
      var j :| 0 <= j < |q| && q[j] == x;
      assert j < m && q[..m][j] == x;
    }
    forall x | x in ahead
      ensures x in AheadOf(t, row)
    {
      var j :| 0 <= j < m && q[..m][j] == x;
      assert q[j] in q;
    }
    assert AheadOf(t, row) == ahead;
    SizeOfDistinct(q[..m]);
  }

  /** Position numbers the line 1, 2, 3, ... from the front. */
  lemma PositionIsPlaceInLine(t: Table, q: seq<Id>, k: nat)
    requires Line(t, q) && k < |q|
    ensures Position(t, q[k]) == Some(k + 1)
  {
    assert forall j :: 0 <= j < |q| ==> q[j] in q;
    assert forall j :: 0 <= j < |q| ==> (Before(t[q[j]], t[q[k]]) <==> j < k);
    PrefixHolds(t, q, t[q[k]], k);
  }

  ghost function Elems<T>(s: seq<T>): set<T> {
    set x | x in s
  }

  lemma {:induction false} SizeOfDistinct<T>(s: seq<T>)
    requires forall j, k :: 0 <= j < k < |s| ==> s[j] != s[k]
    ensures |Elems(s)| == |s|
  {
    if s == [] {
      assert Elems(s) == {};
    } else {
      var init, last := s[..|s| - 1], s[|s| - 1];
      SizeOfDistinct(init);
      assert s == init + [last];
      assert Elems(s) == Elems(init) + {last};
    }
  }

  lemma PlaceOfQueued(t: Table, q: seq<Id>, id: Id) returns (k: nat)
    requires Line(t, q) && IsQueued(t, id)
    ensures k < |q| && q[k] == id && Position(t, id) == Some(k + 1)
  {
    assert id in q;
    k :| 0 <= k < |q| && q[k] == id;
    PositionIsPlaceInLine(t, q, k);
  }

  lemma QueuedHavePlaces(t: Table, q: seq<Id>)
    requires Line(t, q)
    ensures forall id :: IsQueued(t, id) ==> 1 <= Position(t, id).value <= |q| && q[Position(t, id).value - 1] == id
  {
    forall id | IsQueued(t, id)
      ensures 1 <= Position(t, id).value <= |q| && q[Position(t, id).value - 1] == id
    {
      var k := PlaceOfQueued(t, q, id);
    }
  }

  lemma PlacesAreTaken(t: Table, q: seq<Id>)
    requires Line(t, q)
    ensures forall k :: 0 <= k < |q| ==> IsQueued(t, q[k]) && Position(t, q[k]) == Some(k + 1)
  {
    forall k | 0 <= k < |q|
      ensures IsQueued(t, q[k]) && Position(t, q[k]) == Some(k + 1)
    {
      assert q[k] in q;
      PositionIsPlaceInLine(t, q, k);
    }
  }

  /** Two positions agree only for the same job, and every number up to the length is taken. */
  lemma PositionIsBijection(t: Table, q: seq<Id>)
    requires Line(t, q)
    ensures forall a, b :: IsQueued(t, a) && IsQueued(t, b) && Position(t, a) == Position(t, b) ==> a == b
    ensures forall id :: IsQueued(t, id) ==> 1 <= Position(t, id).value <= |q|
    ensures forall k :: 0 <= k < |q| ==> IsQueued(t, q[k]) && Position(t, q[k]) == Some(k + 1)
  {
    QueuedHavePlaces(t, q);
    PlacesAreTaken(t, q);
    forall a, b | IsQueued(t, a) && IsQueued(t, b) && Position(t, a) == Position(t, b)
      ensures a == b
    {
      assert q[Position(t, a).value - 1] == a && q[Position(t, b).value - 1] == b;
    }
  }

  // ----- the restart sweep -----

  function Survivors(t: Table, recs: seq<Id>, maxAttempts: int): (r: seq<Id>)
    requires forall id :: id in recs ==> id in t
  {
    if recs == [] then []
    else (if t[recs[0]].attempts + 1 < maxAttempts then [recs[0]] else []) + Survivors(t, recs[1..], maxAttempts)
  }

  function Reverse(s: seq<Id>): (r: seq<Id>) {
    if s == [] then [] else Reverse(s[1..]) + [s[0]]
  }

  lemma {:induction false} SurvivorsFrame(t: Table, t': Table, recs: seq<Id>, maxAttempts: int)
    requires forall id :: id in recs ==> id in t && id in t' && t'[id] == t[id]
    ensures Survivors(t', recs, maxAttempts) == Survivors(t, recs, maxAttempts)
  {
    if recs != [] {
      SurvivorsFrame(t, t', recs[1..], maxAttempts);
    }
  }

  lemma OneRecovered(t: Table, q: seq<Id>, id: Id, maxAttempts: int, now: int)
    requires Line(t, q) && id in t && t[id].state == Running
    ensures Line(RecoverOne(t, id, maxAttempts, now), if t[id].attempts + 1 < maxAttempts then [id] + q else q)
  {
    var t1 := RecoverOne(t, id, maxAttempts, now);
    if t[id].attempts + 1 < maxAttempts {
      FrontHintPushesFront(t, q, id, t1[id]);
    } else {
      OffLineKeepsLine(t, q, id, t1[id]);
    }
  }

  /** The sweep touches the selected rows only, charging each of them one attempt. */
  lemma {:induction false} SweepCharges(t: Table, recs: seq<Id>, maxAttempts: int, now: int)
    requires forall id :: id in recs ==> id in t && t[id].state == Running
    requires forall j, k :: 0 <= j < k < |recs| ==> recs[j] != recs[k]
    ensures var t' := RecoverAll(t, recs, maxAttempts, now);
            && t'.Keys == t.Keys
            && (forall id :: id in t && id !in recs ==> t'[id] == t[id])
            && (forall id :: id in recs ==> Charged(t[id], t'[id], maxAttempts))
    decreases |recs|
  {
    if recs != [] {
      assert recs[0] in recs;
      SweepCharges(RecoverOne(t, recs[0], maxAttempts, now), recs[1..], maxAttempts, now);
      assert forall id :: id in recs ==> id == recs[0] || id in recs[1..];
    }
  }

  /** `r'` is `r` after one more failed or interrupted run. */
  predicate Charged(r: Row, r': Row, maxAttempts: int) {
    && r'.attempts == r.attempts + 1 && r'.created == r.created && r'.key == r.key && r'.payload == r.payload
    && r'.state == (if r.attempts + 1 >= maxAttempts then Failed else Queued)
  }

  /** What the restart sweep writes into the row of an interrupted job. */
  predicate Recovered(r: Row, r': Row, maxAttempts: int, now: int) {
    && r'.attempts == r.attempts + 1 && r'.key == r.key && r'.payload == r.payload && r'.created == r.created && r'.result == r.result
    && if r.attempts + 1 >= maxAttempts
       then r'.state == Failed && r'.error == "exceeded attempts after restart" && r'.finished == Some(now) && r'.started == r.started
       else r'.state == Queued && r'.error == r.error && r'.finished == r.finished && r'.started == None
  }

  lemma {:induction false} SweepRecovers(t: Table, recs: seq<Id>, maxAttempts: int, now: int)
    requires forall id :: id in recs ==> id in t && t[id].state == Running
    requires forall j, k :: 0 <= j < k < |recs| ==> recs[j] != recs[k]
    ensures var t' := RecoverAll(t, recs, maxAttempts, now);
            && t'.Keys == t.Keys
            && (forall id :: id in t && id !in recs ==> t'[id] == t[id])
            && (forall id :: id in recs ==> Recovered(t[id], t'[id], maxAttempts, now))
    decreases |recs|
  {
    if recs != [] {
      assert recs[0] in recs;
      SweepRecovers(RecoverOne(t, recs[0], maxAttempts, now), recs[1..], maxAttempts, now);
      assert forall id :: id in recs ==> id == recs[0] || id in recs[1..];
    }
  }

  /**
   The sweep puts each survivor in front of the line in the order it visits them, so they end
   up in the opposite order: the last one visited runs first.
   */
  lemma {:induction false} SweepReversesSurvivors(t: Table, q: seq<Id>, recs: seq<Id>, maxAttempts: int, now: int)
    requires Line(t, q)
    requires forall id :: id in recs ==> id in t && t[id].state == Running
    requires forall j, k :: 0 <= j < k < |recs| ==> recs[j] != recs[k]
    ensures Line(RecoverAll(t, recs, maxAttempts, now), Reverse(Survivors(t, recs, maxAttempts)) + q)
    decreases |recs|
  {
    if recs == [] {
      assert Reverse([]) + q == q;
    } else {
      var id := recs[0];
      assert id in recs;
      var t1 := RecoverOne(t, id, maxAttempts, now);
      var q1 := if t[id].attempts + 1 < maxAttempts then [id] + q else q;
      OneRecovered(t, q, id, maxAttempts, now);
      SweepReversesSurvivors(t1, q1, recs[1..], maxAttempts, now);
      SurvivorsFrame(t, t1, recs[1..], maxAttempts);
      ReverseStep(id, Survivors(t, recs[1..], maxAttempts), q);
    }
  }

  lemma ReverseStep(id: Id, rest: seq<Id>, q: seq<Id>)
    ensures Reverse([id] + rest) + q == Reverse(rest) + ([id] + q)
    ensures [] + rest == rest
  {
    assert ([id] + rest)[1..] == rest;
  }
}
