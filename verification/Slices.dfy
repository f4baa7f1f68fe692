/**
 A Go slice used as a FIFO queue: a window of length `len` starting at `off` over a backing
 array. Scheduler.iq, Scheduler.bq and parker.q are all used in this way.
 Every slot of the backing array outside the window is empty, so the garbage collector can
 reclaim a waiter as soon as it has left the queue.
 */
module Slices {
  import opened Wrappers

  /** `s` without its element at index `i`. */
  function RemoveAt<T>(s: seq<T>, i: nat): (r: seq<T>)
    requires i < |s|
  {
    s[..i] + s[i + 1..]
  }

  /** Identities are numbered as they are made, so an ascending queue is one in arrival order. */
  ghost predicate Ascending(s: seq<nat>) {
    forall j, k :: 0 <= j < k < |s| ==> s[j] < s[k]
  }

  /** `s` without the first occurrence of `x`; `s` itself when `x` does not occur. */
  function Without<T(==)>(s: seq<T>, x: T): (r: seq<T>) {
    if s == [] then [] else if s[0] == x then s[1..] else [s[0]] + Without(s[1..], x)
  }

  lemma {:induction false} WithoutAt<T>(s: seq<T>, x: T, i: nat)
    requires i < |s| && s[i] == x && x !in s[..i]
    ensures Without(s, x) == RemoveAt(s, i)
  {
    if i > 0 {
      assert s[..i][0] == s[0] && s[1..][..i - 1] == s[..i][1..];
      WithoutAt(s[1..], x, i - 1);
    }
  }

  lemma {:induction false} WithoutAbsent<T>(s: seq<T>, x: T)
    requires x !in s
    ensures Without(s, x) == s
  {
    if s != [] {
      WithoutAbsent(s[1..], x);
    }
  }

  /** Element `k` of what is left. */
  lemma RemoveAtIndex<T>(s: seq<T>, i: nat)
    requires i < |s|
    ensures |RemoveAt(s, i)| == |s| - 1
    ensures forall k :: 0 <= k < |s| - 1 ==> RemoveAt(s, i)[k] == s[if k < i then k else k + 1]
  {
  }

  lemma RemoveAtMembers<T>(s: seq<T>, i: nat, y: T)
    requires i < |s| && forall j :: 0 <= j < |s| && j != i ==> s[j] != s[i]
    ensures y in RemoveAt(s, i) <==> y in s && y != s[i]
  {
    var r := RemoveAt(s, i);
    RemoveAtIndex(s, i);
    if y in s && y != s[i] {
      var j :| 0 <= j < |s| && s[j] == y;
      assert r[if j < i then j else j - 1] == y;
    }
  }

  /** What occurs once is gone once removed, and nothing else is. */
  lemma WithoutOnly<T>(s: seq<T>, x: T, i: nat)
    requires i < |s| && s[i] == x && forall j :: 0 <= j < |s| && j != i ==> s[j] != x
    ensures Without(s, x) == RemoveAt(s, i)
    ensures forall y :: y in Without(s, x) <==> y in s && y != x
  {
    assert forall j :: 0 <= j < i ==> s[..i][j] != x;
    WithoutAt(s, x, i);
    forall y
      ensures y in RemoveAt(s, i) <==> y in s && y != x
    {
      RemoveAtMembers(s, i, y);
    }
  }

  lemma RemoveAtAscends(s: seq<nat>, i: nat)
    requires Ascending(s) && i < |s|
    ensures Ascending(RemoveAt(s, i))
  {
    RemoveAtIndex(s, i);
    var r := RemoveAt(s, i);
    forall j, k | 0 <= j < k < |r|
      ensures r[j] < r[k]
    {
    }
  }

  /** Removing `x` drops exactly one element, and nothing else changes place. */
  lemma WithoutKeepsOrder(s: seq<nat>, x: nat)
    requires Ascending(s)
    ensures |Without(s, x)| == |s| - (if x in s then 1 else 0)
    ensures Ascending(Without(s, x))
    ensures forall y :: y in Without(s, x) <==> y in s && y != x
  {
    if x in s {
      var i :| 0 <= i < |s| && s[i] == x;
      WithoutOnly(s, x, i);
      RemoveAtAscends(s, i);
    } else {
      WithoutAbsent(s, x);
    }
  }

  /** `x` stands at index `k` of `q` or nearer the front. */
  ghost predicate AtOrBefore(q: seq<nat>, x: nat, k: int) {
    exists j :: 0 <= j < |q| && q[j] == x && j <= k
  }

  /** When someone leaves, nobody else moves back. */
  lemma WithoutAdvances(q: seq<nat>, x: nat, k: nat)
    requires Ascending(q) && k < |q| && q[k] != x
    ensures AtOrBefore(Without(q, x), q[k], k)
  {
    if x in q {
      var i :| 0 <= i < |q| && q[i] == x;
      WithoutAt(q, x, i);
      assert RemoveAt(q, i)[if k < i then k else k - 1] == q[k];
    } else {
      WithoutAbsent(q, x);
    }
  }

  class Slice<T(==)> {
    ghost var Contents: seq<T>
    var buf: array<Option<T>>
    var off: nat
    var len: nat

    ghost predicate Valid()
      reads this, buf
    {
      && off + len <= buf.Length
      && |Contents| == len
      && (forall k :: 0 <= k < len ==> buf[off + k] == Some(Contents[k]))
      && (forall k :: 0 <= k < off || off + len <= k < buf.Length ==> buf[k] == None)
    }

    constructor ()
      ensures Valid() && fresh(buf) && Contents == []
    {
      buf := new Option<T>[0];
      off, len := 0, 0;
      Contents := [];
    }

    /** `append(q, x)`: in place while the backing array has room, else into a larger copy. */
    method Append(x: T)
      requires Valid()
      modifies this, buf
      ensures Valid() && (buf == old(buf) || fresh(buf))
      ensures Contents == old(Contents) + [x]
    {
      if off + len == buf.Length {
        Grow();
      }
      buf[off + len] := Some(x);
      len := len + 1;
      Contents := Contents + [x];
    }

    /** The same elements in a larger array of their own. */
    method Grow()
      requires Valid()
      modifies this
      ensures Valid() && fresh(buf) && off + len < buf.Length
      ensures Contents == old(Contents)
    {
      var grown := new Option<T>[2 * len + 1](_ => None);
      forall k | 0 <= k < len {
        grown[k] := buf[off + k];
      }
      buf, off := grown, 0;
    }

    /** `w := q[0]; q[0] = nil; q = q[1:]`, or None on the empty queue. */
    method PopFront() returns (front: Option<T>)
      requires Valid()
      modifies this, buf
      ensures Valid() && buf == old(buf)
      ensures old(Contents) == [] ==> front == None && Contents == []
      ensures old(Contents) != [] ==> front == Some(old(Contents)[0]) && Contents == old(Contents)[1..]
    {
      if len == 0 {
        return None;
      }
      front := buf[off];
      buf[off] := None;
      off, len := off + 1, len - 1;
      Contents := Contents[1..];
    }

    /** Linear scan for `x`; on a hit the tail is copied down over it and the freed slot cleared. */
    method Remove(x: T) returns (found: bool)
      requires Valid()
      modifies this, buf
      ensures Valid() && buf == old(buf)
      ensures found <==> x in old(Contents)
      ensures Contents == Without(old(Contents), x)
    {
      var i := 0;
      while i < len
        invariant 0 <= i <= len
        invariant x !in Contents[..i]
      {
        if buf[off + i] == Some(x) {
          WithoutAt(Contents, x, i);
          ShiftDown(i);
          return true;
        }
        i := i + 1;
      }
      assert Contents[..len] == Contents;
      WithoutAbsent(Contents, x);
      return false;
    }

    /** `copy(q[i:], q[i+1:]); q[len(q)-1] = nil; q = q[:len(q)-1]`. */
    method ShiftDown(i: nat)
      requires Valid() && i < len
      modifies this, buf
      ensures Valid() && buf == old(buf)
      ensures Contents == RemoveAt(old(Contents), i)
    {
      forall k | off + i <= k < off + len - 1 {
        buf[k] := buf[k + 1];
      }
      buf[off + len - 1] := None;
      len := len - 1;
      Contents := RemoveAt(Contents, i);
    }

    /** Copies the first `n` elements out, clears their slots, and reslices past them. */
    method TakeFront(n: nat) returns (batch: seq<T>)
      requires Valid() && n <= len
      modifies this, buf
      ensures Valid() && buf == old(buf)
      ensures batch == old(Contents)[..n] && Contents == old(Contents)[n..]
    {
      batch := [];
      for i := 0 to n
        invariant unchanged(this) && unchanged(buf)
        invariant batch == Contents[..i]
      {
        assert buf[off + i] == Some(Contents[i]);
        batch := batch + [buf[off + i].value];
      }
      forall k | off <= k < off + n {
        buf[k] := None;
      }
      off, len := off + n, len - n;
      Contents := Contents[n..];
    }
  }
}
