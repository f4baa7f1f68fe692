/** The store object: each method is one transaction on its table. */
module JobStore {
  import opened Wrappers
  import opened Slices
  import opened JobTable
  import opened JobDeque

  /** Some row comes before no other in the claim order. */
  lemma {:induction false} FirstRow(t: Table, ids: set<Id>) returns (id: Id)
    requires ids != {} && ids <= t.Keys
    ensures id in ids && forall x :: x in ids ==> !Before(t[x], t[id])
    decreases |ids|
  {
    id := AnyOf(ids);
    var rest := ids - {id};
    assert forall x :: x in ids ==> x == id || x in rest;
    if rest != {} {
      var r := FirstRow(t, rest);
      if Before(t[r], t[id]) {
        id := r;
      }
    }
  }

  class Store {
    var rows: Table

    constructor ()
      ensures rows == map[]
    {
      rows := map[];
    }

    method NextBack() returns (h: int)
      ensures h == BackHint(rows)
    {
      var hints := Hints(rows);
      if hints == {} {
        return 1;
      }
      ghost var m := MaxOf(hints);
      var max :| max in hints && forall x :: x in hints ==> x <= max;
      return max + 1;
    }

    method NextFront() returns (h: int)
      ensures h == FrontHint(rows)
    {
      var hints := QueuedHints(rows);
      if hints == {} {
        return -1;
      }
      ghost var m := MinOf(hints);
      var min :| min in hints && forall x :: x in hints ==> min <= x;
      return min - 1;
    }

    /** A repeated key gets the row it already has; a repeated id violates the primary key; any other job joins the back. */
    method Submit(id: Id, key: string, payload: string, now: int) returns (r: Result<(Id, bool), StoreError>)
      modifies this
      ensures KeyTaken(old(rows), key) ==>
                rows == old(rows) && r.Ok? && !r.value.1 && r.value.0 in rows && rows[r.value.0].key == key
      ensures !KeyTaken(old(rows), key) && id in old(rows) ==> rows == old(rows) && r == Err(Duplicate)
      ensures !KeyTaken(old(rows), key) && id !in old(rows) ==>
                && rows == Insert(old(rows), id, key, payload, now) && r == Ok((id, true))
                && rows.Keys == old(rows).Keys + {id} && (forall x :: x in old(rows) ==> rows[x] == old(rows)[x])
                && rows[id] == Row(key, payload, Queued, 0, "", "", rows[id].hint, now, None, None)
                && forall q :: Line(old(rows), q) ==> Line(rows, q + [id])
    {
      if existing :| existing in rows && rows[existing].key == key {
        return Ok((existing, false));
      }
      if id in rows {
        return Err(Duplicate);
      }
      ghost var was := rows;
      var h := NextBack();
      rows := rows[id := Row(key, payload, Queued, 0, "", "", h, now, None, None)];
      forall q | Line(was, q)
        ensures Line(rows, q + [id])
      {
        SubmitPushesBack(was, q, id, key, payload, now);
      }
      return Ok((id, true));
    }

    /** Takes the front of the line, whatever it is, and says so if there is none. */
    method ClaimNext(now: int) returns (r: Result<Id, StoreError>)
      modifies this
      ensures match r
              case Ok(id) => IsHead(old(rows), id) && rows == Claim(old(rows), id, now)
              case Err(e) => e == NotFound && rows == old(rows) && forall id :: !IsQueued(rows, id)
      ensures r.Ok? ==>
                && r.value in old(rows) && SameElsewhere(old(rows), rows, r.value)
                && rows[r.value] == old(rows)[r.value].(state := Running, started := Some(now), error := "")
                && old(rows)[r.value].state == Queued
                && (forall x :: IsQueued(old(rows), x) ==>
                      || old(rows)[r.value].hint < old(rows)[x].hint
                      || (old(rows)[r.value].hint == old(rows)[x].hint && old(rows)[r.value].created <= old(rows)[x].created))
                && forall q :: Line(old(rows), q) ==> q != [] && q[0] == r.value && Line(rows, q[1..])
    {
      var queued := set id | id in rows && rows[id].state == Queued;
      if queued == {} {
        assert forall id :: IsQueued(rows, id) ==> id in queued;
        return Err(NotFound);
      }
      ghost var first := FirstRow(rows, queued);
      var id :| id in queued && forall x :: x in queued ==> !Before(rows[x], rows[id]);
      assert forall x :: IsQueued(rows, x) ==> x in queued;
      ghost var was := rows;
      rows := rows[id := rows[id].(state := Running, started := Some(now), error := "")];
      forall q | Line(was, q)
        ensures q != [] && q[0] == id && Line(rows, q[1..])
      {
        ClaimPopsFront(was, q, id, now);
      }
      return Ok(id);
    }

    /** Only a running job succeeds; its place in the accounting, and every other job, stays as it was. */
    method MarkSucceeded(id: Id, result: string, now: int) returns (ok: bool)
      modifies this
      ensures rows == Succeed(old(rows), id, result, now)
      ensures ok <==> IsRunning(old(rows), id)
      ensures if ok then SameElsewhere(old(rows), rows, id) else rows == old(rows)
      ensures ok ==>
                var r, r' := old(rows)[id], rows[id];
                && r'.state == Succeeded && r'.result == result && r'.error == "" && r'.finished == Some(now)
                && r'.attempts == r.attempts && r'.key == r.key && r'.payload == r.payload && r'.created == r.created
                && r'.started == r.started && r'.hint == r.hint
      ensures forall q :: Line(old(rows), q) ==> Line(rows, q)
    {
      ok := id in rows && rows[id].state == Running;
      if ok {
        ghost var was := rows;
        rows := rows[id := rows[id].(state := Succeeded, result := result, finished := Some(now), error := "")];
        forall q | Line(was, q)
          ensures Line(rows, q)
        {
          OffLineKeepsLine(was, q, id, rows[id]);
        }
      }
    }

    /** A running job goes back to the front of the line, and is charged nothing for it. */
    method Requeue(id: Id) returns (ok: bool)
      modifies this
      ensures rows == Preempt(old(rows), id)
      ensures ok <==> IsRunning(old(rows), id)
      ensures if ok then SameElsewhere(old(rows), rows, id) else rows == old(rows)
      ensures ok ==>
                var r, r' := old(rows)[id], rows[id];
                && r'.state == Queued && r'.started == None && r'.finished == r.finished
                && r'.attempts == r.attempts && r'.key == r.key && r'.payload == r.payload && r'.created == r.created
                && r'.result == r.result && r'.error == r.error
      ensures forall q :: Line(old(rows), q) ==> Line(rows, if ok then [id] + q else q)
    {
      ok := id in rows && rows[id].state == Running;
      if ok {
        ghost var was := rows;
        var h := NextFront();
        rows := rows[id := rows[id].(state := Queued, started := None, hint := h)];
        forall q | Line(was, q)
          ensures Line(rows, [id] + q)
        {
          FrontHintPushesFront(was, q, id, rows[id]);
        }
      }
    }

    /** One attempt more: the job fails if that was the last it had, else it goes to the front of the line. */
    method ChargeAttempt(id: Id, failMsg: string, retryMsg: string, maxAttempts: int, now: int) returns (failed: bool)
      requires id in rows
      modifies this
      ensures rows == Charge(old(rows), id, failMsg, retryMsg, maxAttempts, now)
      ensures failed == (old(rows)[id].attempts + 1 >= maxAttempts)
      ensures SameElsewhere(old(rows), rows, id)
      ensures rows[id] ==
                if failed
                then old(rows)[id].(state := Failed, attempts := old(rows)[id].attempts + 1, error := failMsg, finished := Some(now))
                else old(rows)[id].(state := Queued, attempts := old(rows)[id].attempts + 1, error := retryMsg, started := None,
                                    hint := rows[id].hint)
      ensures old(rows)[id].state != Queued ==> forall q :: Line(old(rows), q) ==> Line(rows, if failed then q else [id] + q)
    {
      ghost var was := rows;
      var attempts := rows[id].attempts + 1;
      if attempts >= maxAttempts {
        rows := rows[id := rows[id].(state := Failed, attempts := attempts, error := failMsg, finished := Some(now))];
        forall q | was[id].state != Queued && Line(was, q)
          ensures Line(rows, q)
        {
          OffLineKeepsLine(was, q, id, rows[id]);
        }
        return true;
      }
      var h := NextFront();
      rows := rows[id := rows[id].(state := Queued, attempts := attempts, error := retryMsg, started := None, hint := h)];
      forall q | was[id].state != Queued && Line(was, q)
        ensures Line(rows, [id] + q)
      {
        FrontHintPushesFront(was, q, id, rows[id]);
      }
      return false;
    }

    method FailOrRetryRun(id: Id, msg: string, maxAttempts: int, now: int) returns (r: Result<bool, StoreError>)
      modifies this
      ensures rows == FailOrRetry(old(rows), id, msg, maxAttempts, now)
      ensures r == if id !in old(rows) then Err(NotFound)
                   else if old(rows)[id].state != Running then Err(AlreadyTerminal)
                   else Ok(old(rows)[id].attempts + 1 >= maxAttempts)
      ensures r.Err? ==> rows == old(rows)
      ensures r.Ok? ==>
                && SameElsewhere(old(rows), rows, id)
                && rows[id].attempts == old(rows)[id].attempts + 1 && rows[id].error == msg
                && rows[id].state == (if r.value then Failed else Queued)
                && rows[id].finished == (if r.value then Some(now) else old(rows)[id].finished)
                && forall q :: Line(old(rows), q) ==> Line(rows, if r.value then q else [id] + q)
    {
      if id !in rows {
        return Err(NotFound);
      }
      if rows[id].state != Running {
        return Err(AlreadyTerminal);
      }
      var failed := ChargeAttempt(id, msg, msg, maxAttempts, now);
      return Ok(failed);
    }

    /** `recs` is what the SELECT returned. */
    method RecoverRunning(recs: seq<Id>, maxAttempts: int, now: int) returns (n: nat)
      requires IsSweep(rows, recs)
      modifies this
      ensures rows == RecoverAll(old(rows), recs, maxAttempts, now) && n == |recs|
      ensures rows.Keys == old(rows).Keys
      ensures forall id :: id in old(rows) ==>
                if IsRunning(old(rows), id) then Recovered(old(rows)[id], rows[id], maxAttempts, now) else rows[id] == old(rows)[id]
    {
      SweepRecovers(rows, recs, maxAttempts, now);
      ghost var start := rows;
      var i := 0;
      while i < |recs|
        invariant 0 <= i <= |recs|
        invariant forall k :: i <= k < |recs| ==> recs[k] in rows
        invariant forall id :: id in recs[i..] ==> id in rows
        invariant RecoverAll(rows, recs[i..], maxAttempts, now) == RecoverAll(start, recs, maxAttempts, now)
      {
        assert recs[i..][0] == recs[i] && recs[i..][1..] == recs[i + 1..];
        var _ := ChargeAttempt(recs[i], RESTART_MSG, rows[recs[i]].error, maxAttempts, now);
        i := i + 1;
      }
      return |recs|;
    }

    /**
     Whatever a cancelled job was, it is terminal afterwards, and returned as it then is: a
     terminal one unchanged, any other canceled, and gone from the line if it stood there.
     */
    method CancelJob(id: Id, now: int) returns (r: Result<Row, StoreError>)
      modifies this
      ensures rows == Cancel(old(rows), id, now)
      ensures id !in old(rows) ==> r == Err(NotFound) && rows == old(rows)
      ensures id in old(rows) ==> SameElsewhere(old(rows), rows, id) && r == Ok(rows[id]) && rows[id].state.Terminal()
      ensures id in old(rows) ==>
                rows[id] == if old(rows)[id].state.Terminal() then old(rows)[id]
                            else old(rows)[id].(state := Canceled, finished := Some(now))
      ensures forall q :: Line(old(rows), q) ==> Line(rows, Without(q, id))
    {
      ghost var was := rows;
      if id in rows && !rows[id].state.Terminal() {
        rows := rows[id := rows[id].(state := Canceled, finished := Some(now))];
      }
      forall q | Line(was, q)
        ensures Line(rows, Without(q, id))
      {
        if IsQueued(was, id) {
          LeavesLine(was, q, id, rows[id]);
        } else {
          WithoutAbsent(q, id);
          if id in was {
            OffLineKeepsLine(was, q, id, rows[id]);
            assert was[id := rows[id]] == rows;
          }
        }
      }
      if id !in rows {
        return Err(NotFound);
      }
      return Ok(rows[id]);
    }

    /** Position's second statement: how much of the line as it now is comes before the row read earlier. */
    method CountAhead(row: Row) returns (n: nat)
      ensures n == |AheadOf(rows, row)|
      ensures forall q :: Line(rows, q) ==>
                n <= |q| && forall j :: 0 <= j < |q| ==> q[j] in rows && (Before(rows[q[j]], row) <==> j < n)
    {
      n := |AheadOf(rows, row)|;
      forall q | Line(rows, q)
        ensures n <= |q| && forall j :: 0 <= j < |q| ==> q[j] in rows && (Before(rows[q[j]], row) <==> j < n)
      {
        AheadIsPrefix(rows, q, row);
      }
    }

    /** Position when nothing commits in between: the place in the line, counted from 1. */
    method PositionOf(id: Id) returns (p: Option<nat>)
      ensures p == Position(rows, id)
      ensures p == None <==> id !in rows
      ensures p == Some(0) <==> id in rows && !IsQueued(rows, id)
      ensures forall q, k :: Line(rows, q) && 0 <= k < |q| && q[k] == id ==> p == Some(k + 1)
    {
      if id !in rows {
        return None;
      }
      var row := rows[id];
      if row.state != Queued {
        assert forall q :: Line(rows, q) ==> id !in q;
        return Some(0);
      }
      var n := CountAhead(row);
      forall q, k | Line(rows, q) && 0 <= k < |q| && q[k] == id
        ensures n == k
      {
        PositionIsPlaceInLine(rows, q, k);
      }
      return Some(n + 1);
    }
  }
}
