/**
 The incremental parser of a chat-completion event stream. JSON decoding is an arbitrary function
 from the text of an event to what the parser looks at.
 */
module Sse {
  import opened Wrappers
  import opened Strings

  /** What decoding one event yields; no choices and no content both mean empty content. */
  datatype Decoded = Malformed | UpstreamError(message: string) | Chunk(content: string, usage: Option<int>)

  datatype Failure = Cancelled | ReadFailed | BadChunk | Reported(message: string) | NoDone

  datatype Outcome = Complete(text: string, tokens: int) | Failed(why: Failure)

  /** The deltas reported so far, and the last usage count seen. */
  datatype Progress = Progress(deltas: seq<string>, usage: Option<int>)

  const START := Progress([], None)

  // ----- what a stream says -----

  /** cutPrefix: the rest of the line without one leading space. */
  function CutPrefix(s: string, prefix: string): (r: Option<string>) {
    if !HasPrefix(s, prefix) then None
    else
      var rest := s[|prefix|..];
      Some(if HasPrefix(rest, " ") then rest[1..] else rest)
  }

  predicate IsBoundary(line: string) {
    TrimSpace(line) == ""
  }

  function Field(line: string): (r: Option<string>) {
    CutPrefix(TrimSpace(line), "data:")
  }

  /** The data lines read since the last event boundary, `pending` having been read before. */
  function Open(lines: seq<string>, pending: seq<string>): (open: seq<string>) {
    if lines == [] then pending
    else if IsBoundary(lines[0]) then Open(lines[1..], [])
    else match Field(lines[0])
         case Some(data) => Open(lines[1..], pending + [data])
         case None => Open(lines[1..], pending)
  }

  function Flush(pending: seq<string>): (events: seq<string>) {
    if pending == [] then [] else [Join(pending, '\n')]
  }

  /** The texts of the events that a boundary in `lines` ends. */
  function Closed(lines: seq<string>, pending: seq<string>): (events: seq<string>) {
    if lines == [] then []
    else if IsBoundary(lines[0]) then Flush(pending) + Closed(lines[1..], [])
    else match Field(lines[0])
         case Some(data) => Closed(lines[1..], pending + [data])
         case None => Closed(lines[1..], pending)
  }

  /** The texts of all events of a stream of these lines. */
  function Events(lines: seq<string>): (events: seq<string>) {
    Closed(lines, []) + Flush(Open(lines, []))
  }

  function Concat(pieces: seq<string>): (s: string) {
    if pieces == [] then "" else pieces[0] + Concat(pieces[1..])
  }

  function Final(p: Progress): (o: Outcome) {
    Complete(Concat(p.deltas), if p.usage.Some? && p.usage.value >= 0 then p.usage.value else |p.deltas|)
  }

  /** Where the parser is: still reading, or finished. */
  datatype State = Reading(p: Progress) | Finished(p: Progress, o: Outcome)

  /** What one event does. */
  function Absorb(p: Progress, data: string, decode: string -> Decoded): (s: State) {
    if data == "[DONE]" then Finished(p, Final(p))
    else match decode(data)
         case Malformed => Finished(p, Failed(BadChunk))
         case UpstreamError(m) => Finished(p, Failed(Reported(if m == "" then "unknown error" else m)))
         case Chunk(content, usage) =>
           Reading(Progress(if content != "" then p.deltas + [content] else p.deltas,
                            if usage.Some? then usage else p.usage))
  }

  function Replay(s: State, events: seq<string>, decode: string -> Decoded): (r: State)
    decreases |events|
  {
    if events == [] || s.Finished? then s else Replay(Absorb(s.p, events[0], decode), events[1..], decode)
  }

  /** What a parser still reading reports when the stream is at its end. */
  function AtEnd(s: State, why: Failure): (r: State) {
    if s.Finished? then s else Finished(s.p, Failed(why))
  }

  /**
   The result of parsing `lines`, after which the scanner fails if `readFails`, the context being
   done once `cancelAt` lines have been delivered.
   */
  function Meaning(lines: seq<string>, readFails: bool, cancelAt: nat, decode: string -> Decoded): (r: State) {
    if cancelAt < |lines| then AtEnd(Replay(Reading(START), Closed(lines[..cancelAt], []), decode), Cancelled)
    else if readFails then
      AtEnd(Replay(Reading(START), Closed(lines, []), decode), if cancelAt == |lines| then Cancelled else ReadFailed)
    else
      AtEnd(Replay(Reading(START), Events(lines), decode), if cancelAt == |lines| then Cancelled else NoDone)
  }

  lemma {:induction false} ReplaySplits(s: State, first: seq<string>, rest: seq<string>, decode: string -> Decoded)
    ensures Replay(s, first + rest, decode) == Replay(Replay(s, first, decode), rest, decode)
    decreases |first|
  {
    if first == [] {
      assert first + rest == rest;
    } else if s.Reading? {
      assert (first + rest)[1..] == first[1..] + rest;
      ReplaySplits(Absorb(s.p, first[0], decode), first[1..], rest, decode);
    }
  }

  lemma {:induction false} ReadOneMore(lines: seq<string>, pending: seq<string>, line: string)
    ensures IsBoundary(line) ==>
              Closed(lines + [line], pending) == Closed(lines, pending) + Flush(Open(lines, pending))
              && Open(lines + [line], pending) == []
    ensures !IsBoundary(line) ==>
              Closed(lines + [line], pending) == Closed(lines, pending)
              && Open(lines + [line], pending)
                 == Open(lines, pending) + if Field(line).Some? then [Field(line).value] else []
    decreases |lines|
  {
    var all := lines + [line];
    if lines == [] {
      assert all[0] == line && all[1..] == [];
      assert Flush(pending) + [] == Flush(pending);
      assert pending + [] == pending;
    } else {
      assert all[0] == lines[0] && all[1..] == lines[1..] + [line];
      var read := if IsBoundary(lines[0]) then []
                  else if Field(lines[0]).Some? then pending + [Field(lines[0]).value]
                  else pending;
      ReadOneMore(lines[1..], read, line);
      if IsBoundary(lines[0]) {
        assert Flush(pending) + (Closed(lines[1..], []) + Flush(Open(lines[1..], [])))
            == (Flush(pending) + Closed(lines[1..], [])) + Flush(Open(lines[1..], []));
      }
    }
  }

  // ----- the parser -----

  /** The flush closure: nothing to do without data lines. */
  method FlushEvent(p: Progress, dataLines: seq<string>, decode: string -> Decoded) returns (s: State)
    ensures s == Replay(Reading(p), Flush(dataLines), decode)
  {
    if dataLines == [] {
      return Reading(p);
    }
    var data := Join(dataLines, '\n');
    assert Flush(dataLines)[1..] == [];
    if data == "[DONE]" {
      return Finished(p, Final(p));
    }
    match decode(data)
    case Malformed => return Finished(p, Failed(BadChunk));
    case UpstreamError(m) => return Finished(p, Failed(Reported(if m == "" then "unknown error" else m)));
    case Chunk(content, usage) =>
      var deltas, last := p.deltas, p.usage;
      if content != "" {
        deltas := deltas + [content];
      }
      if usage.Some? {
        last := usage;
      }
      return Reading(Progress(deltas, last));
  }

  method Parse(lines: seq<string>, readFails: bool, cancelAt: nat, decode: string -> Decoded)
    returns (p: Progress, o: Outcome)
    ensures Finished(p, o) == Meaning(lines, readFails, cancelAt, decode)
  {
    p := START;
    var dataLines: seq<string> := [];
    var i := 0;
    while i < |lines|
      invariant 0 <= i <= |lines| && i <= cancelAt
      invariant Reading(p) == Replay(Reading(START), Closed(lines[..i], []), decode)
      invariant dataLines == Open(lines[..i], [])
    {
      if cancelAt <= i {
        return p, Failed(Cancelled);
      }
      assert lines[..i + 1] == lines[..i] + [lines[i]];
      ReadOneMore(lines[..i], [], lines[i]);
      if TrimSpace(lines[i]) == "" {
        var s := FlushEvent(p, dataLines, decode);
        ReplaySplits(Reading(START), Closed(lines[..i], []), Flush(dataLines), decode);
        if s.Finished? {
          FinishedStays(lines, i + 1, readFails, cancelAt, decode);
          return s.p, s.o;
        }
        p, dataLines := s.p, [];
      } else {
        var data := Field(lines[i]);
        if data.Some? {
          dataLines := dataLines + [data.value];
        }
      }
      i := i + 1;
    }
    assert lines[..i] == lines;
    if readFails {
      return p, Failed(if cancelAt == |lines| then Cancelled else ReadFailed);
    }
    var s := FlushEvent(p, dataLines, decode);
    ReplaySplits(Reading(START), Closed(lines, []), Flush(dataLines), decode);
    if s.Finished? {
      return s.p, s.o;
    }
    return s.p, Failed(if cancelAt == |lines| then Cancelled else NoDone);
  }

  lemma {:induction false} ClosedGrows(lines: seq<string>, pending: seq<string>, more: seq<string>)
    ensures Closed(lines, pending) <= Closed(lines + more, pending)
    decreases |more|
  {
    if more == [] {
      assert lines + more == lines;
    } else {
      assert lines + more == (lines + more[..|more| - 1]) + [more[|more| - 1]];
      ReadOneMore(lines + more[..|more| - 1], pending, more[|more| - 1]);
      ClosedGrows(lines, pending, more[..|more| - 1]);
    }
  }

  /** Once finished, nothing that the stream goes on with matters. */
  lemma FinishedStays(lines: seq<string>, n: nat, readFails: bool, cancelAt: nat, decode: string -> Decoded)
    requires n <= |lines| && n <= cancelAt
    requires Replay(Reading(START), Closed(lines[..n], []), decode).Finished?
    ensures Meaning(lines, readFails, cancelAt, decode) == Replay(Reading(START), Closed(lines[..n], []), decode)
  {
    var seen := if cancelAt < |lines| then lines[..cancelAt] else lines;
    assert seen == lines[..n] + seen[n..];
    ClosedGrows(lines[..n], [], seen[n..]);
    var early, late := Closed(lines[..n], []), Closed(seen, []);
    assert late == early + late[|early|..];
    ReplaySplits(Reading(START), early, late[|early|..], decode);
    ReplaySplits(Reading(START), late, Flush(Open(seen, [])), decode);
  }

  // ----- when a parse completes, and with what -----

  /** The k-th event is the first [DONE], and every event before it is a chunk. */
  ghost predicate DoneAt(events: seq<string>, k: int, decode: string -> Decoded) {
    && 0 <= k < |events| && events[k] == "[DONE]"
    && forall j :: 0 <= j < k ==> events[j] != "[DONE]" && decode(events[j]).Chunk?
  }

  ghost function ContentOf(d: Decoded): (s: string) {
    if d.Chunk? then d.content else ""
  }

  /** The text of the chunks, run together. */
  ghost function TextOf(events: seq<string>, decode: string -> Decoded): (s: string) {
    if events == [] then "" else ContentOf(decode(events[0])) + TextOf(events[1..], decode)
  }

  ghost function NonEmpty(events: seq<string>, decode: string -> Decoded): (n: nat) {
    if events == [] then 0 else (if ContentOf(decode(events[0])) != "" then 1 else 0) + NonEmpty(events[1..], decode)
  }

  /** The usage the last chunk that carries one reports. */
  ghost function LastUsage(events: seq<string>, decode: string -> Decoded): (u: Option<int>) {
    if events == [] then None
    else
      var later := LastUsage(events[1..], decode);
      if later.Some? then later else if decode(events[0]).Chunk? then decode(events[0]).usage else None
  }

  /** The count a stream is charged with. */
  ghost function CountOf(events: seq<string>, decode: string -> Decoded): (tokens: int) {
    var u := LastUsage(events, decode);
    if u.Some? && u.value >= 0 then u.value else NonEmpty(events, decode)
  }

  lemma {:induction false} ConcatOneMore(pieces: seq<string>, s: string)
    ensures Concat(pieces + [s]) == Concat(pieces) + s
  {
    if pieces == [] {
      assert (pieces + [s])[1..] == [];
    } else {
      assert (pieces + [s])[1..] == pieces[1..] + [s];
      ConcatOneMore(pieces[1..], s);
    }
  }

  /** What one chunk adds to the text and to the number of deltas. */
  lemma OneChunk(p: Progress, data: string, decode: string -> Decoded)
    requires data != "[DONE]" && decode(data).Chunk?
    ensures var s := Absorb(p, data, decode);
            && s.Reading?
            && Concat(s.p.deltas) == Concat(p.deltas) + ContentOf(decode(data))
            && |s.p.deltas| == |p.deltas| + (if ContentOf(decode(data)) != "" then 1 else 0)
            && s.p.usage == if decode(data).usage.Some? then decode(data).usage else p.usage
  {
    ConcatOneMore(p.deltas, decode(data).content);
    assert Concat(p.deltas) + "" == Concat(p.deltas);
  }

  lemma RunTogether(a: string, b: string, c: string)
    ensures (a + b) + c == a + (b + c)
  {
  }

  /** Chunks are absorbed one by one: the text so far, the number of deltas and the last usage. */
  lemma {:induction false} ChunksAbsorbed(p: Progress, events: seq<string>, decode: string -> Decoded)
    requires forall j :: 0 <= j < |events| ==> events[j] != "[DONE]" && decode(events[j]).Chunk?
    decreases |events|
    ensures var s := Replay(Reading(p), events, decode);
            && s.Reading?
            && Concat(s.p.deltas) == Concat(p.deltas) + TextOf(events, decode)
            && |s.p.deltas| == |p.deltas| + NonEmpty(events, decode)
            && s.p.usage == if LastUsage(events, decode).Some? then LastUsage(events, decode) else p.usage
  {
    if events == [] {
      assert Concat(p.deltas) + "" == Concat(p.deltas);
    } else {
      var s, here, later := Absorb(p, events[0], decode), ContentOf(decode(events[0])), TextOf(events[1..], decode);
      OneChunk(p, events[0], decode);
      ChunksAbsorbed(s.p, events[1..], decode);
      assert Replay(Reading(p), events, decode) == Replay(s, events[1..], decode);
      RunTogether(Concat(p.deltas), here, later);
    }
  }

  /** A stream completes exactly if a [DONE] follows nothing but chunks. */
  lemma {:induction false} CompletesIff(p: Progress, events: seq<string>, decode: string -> Decoded)
    ensures (Replay(Reading(p), events, decode).Finished? && Replay(Reading(p), events, decode).o.Complete?)
            <==> exists k :: DoneAt(events, k, decode)
    decreases |events|
  {
    if events != [] {
      var s, rest := Absorb(p, events[0], decode), events[1..];
      if s.Finished? {
        assert events[0] == "[DONE]" ==> DoneAt(events, 0, decode);
      } else {
        CompletesIff(s.p, rest, decode);
        if exists k :: DoneAt(rest, k, decode) {
          var k :| DoneAt(rest, k, decode);
          assert DoneAt(events, k + 1, decode);
        }
        if exists k :: DoneAt(events, k, decode) {
          var k :| DoneAt(events, k, decode);
          assert k > 0 && rest[k - 1] == events[k] && forall j :: 0 <= j < k - 1 ==> rest[j] == events[j + 1];
          assert DoneAt(rest, k - 1, decode);
        }
      }
    }
  }

  /** A parse that completes returns the chunks' text up to [DONE] run together, and their count. */
  lemma CompletedText(events: seq<string>, k: int, decode: string -> Decoded)
    requires DoneAt(events, k, decode)
    ensures var s := Replay(Reading(START), events, decode);
            && s.Finished? && s.o.Complete?
            && s.o.text == Concat(s.p.deltas) == TextOf(events[..k], decode)
            && s.o.tokens == CountOf(events[..k], decode)
  {
    var before := events[..k];
    assert events == before + ([events[k]] + events[k + 1..]);
    ReplaySplits(Reading(START), before, [events[k]] + events[k + 1..], decode);
    ChunksAbsorbed(START, before, decode);
    assert "" + TextOf(before, decode) == TextOf(before, decode);
  }

  ghost predicate IsChunk(event: string, decode: string -> Decoded) {
    event != "[DONE]" && decode(event).Chunk?
  }

  /** The k-th event is the first that is not a chunk. */
  ghost predicate FirstOther(events: seq<string>, k: int, decode: string -> Decoded) {
    0 <= k < |events| && !IsChunk(events[k], decode) && forall j :: 0 <= j < k ==> IsChunk(events[j], decode)
  }

  ghost predicate AllChunks(events: seq<string>, decode: string -> Decoded) {
    forall j :: 0 <= j < |events| ==> IsChunk(events[j], decode)
  }

  /** What an event that is not a chunk ends the parse with. */
  ghost predicate EndsWith(o: Outcome, event: string, decode: string -> Decoded) {
    if event == "[DONE]" then o.Complete?
    else if decode(event).Malformed? then o == Failed(BadChunk)
    else
      && decode(event).UpstreamError?
      && o == Failed(Reported(if decode(event).message == "" then "unknown error" else decode(event).message))
  }

  /** Events decide a parse by the first of them that is not a chunk, and not at all if there is none. */
  lemma {:induction false} FirstOtherDecides(p: Progress, events: seq<string>, decode: string -> Decoded)
    ensures AllChunks(events, decode) ==> Replay(Reading(p), events, decode).Reading?
    ensures forall k :: FirstOther(events, k, decode) ==>
              Replay(Reading(p), events, decode).Finished? && EndsWith(Replay(Reading(p), events, decode).o, events[k], decode)
    decreases |events|
  {
    if events != [] {
      var s, rest := Absorb(p, events[0], decode), events[1..];
      if s.Reading? {
        FirstOtherDecides(s.p, rest, decode);
        assert AllChunks(events, decode) ==> AllChunks(rest, decode);
        forall k | FirstOther(events, k, decode)
          ensures FirstOther(rest, k - 1, decode)
        {
          assert rest[k - 1] == events[k] && forall j :: 0 <= j < k - 1 ==> rest[j] == events[j + 1];
        }
      }
    }
  }

  /**
   The outcome of a stream that is read to its end: the one the first event that is not a chunk
   calls for, and an error about the missing [DONE] if there is no such event.
   */
  lemma OutcomeOfWhole(lines: seq<string>, decode: string -> Decoded)
    ensures var r := Meaning(lines, false, |lines| + 1, decode);
            && r.Finished?
            && (AllChunks(Events(lines), decode) ==> r.o == Failed(NoDone))
            && (forall k :: FirstOther(Events(lines), k, decode) ==> EndsWith(r.o, Events(lines)[k], decode))
  {
    FirstOtherDecides(START, Events(lines), decode);
  }

  /**
   The outcome of a stream that is not: what the events already ended call for if one of them is
   not a chunk; otherwise Cancelled if the context is done, and else the failed read.
   */
  lemma OutcomeOfInterrupted(lines: seq<string>, readFails: bool, cancelAt: nat, decode: string -> Decoded)
    requires cancelAt <= |lines| || readFails
    ensures var seen := if cancelAt < |lines| then Closed(lines[..cancelAt], [])
                        else if readFails then Closed(lines, []) else Events(lines);
            var r := Meaning(lines, readFails, cancelAt, decode);
            && r.Finished?
            && (AllChunks(seen, decode) ==> r.o == Failed(if cancelAt <= |lines| then Cancelled else ReadFailed))
            && (forall k :: FirstOther(seen, k, decode) ==> EndsWith(r.o, seen[k], decode))
  {
    var seen := if cancelAt < |lines| then Closed(lines[..cancelAt], [])
                else if readFails then Closed(lines, []) else Events(lines);
    FirstOtherDecides(START, seen, decode);
  }

  /** Cancelling or a failing read only ever shortens what was reported. */
  lemma InterruptedIsPrefix(lines: seq<string>, readFails: bool, cancelAt: nat, decode: string -> Decoded)
    ensures Meaning(lines, readFails, cancelAt, decode).p.deltas
         <= Meaning(lines, false, |lines| + 1, decode).p.deltas
  {
    var seen := if cancelAt < |lines| then lines[..cancelAt] else lines;
    var early := if cancelAt < |lines| || readFails then Closed(seen, []) else Events(lines);
    assert lines == seen + lines[|seen|..];
    ClosedGrows(seen, [], lines[|seen|..]);
    var all := Events(lines);
    assert early <= all;
    assert all == early + all[|early|..];
    ReplaySplits(Reading(START), early, all[|early|..], decode);
    DeltasGrow(Replay(Reading(START), early, decode), all[|early|..], decode);
  }

  lemma {:induction false} DeltasGrow(s: State, events: seq<string>, decode: string -> Decoded)
    ensures s.p.deltas <= Replay(s, events, decode).p.deltas
    decreases |events|
  {
    if events != [] && s.Reading? {
      DeltasGrow(Absorb(s.p, events[0], decode), events[1..], decode);
    }
  }

  // ----- rendering, and reading it back -----

  const DATA := "data: "

  function RenderEvent(data: seq<string>): (lines: seq<string>) {
    if data == [] then [""] else [DATA + data[0]] + RenderEvent(data[1..])
  }

  function Render(events: seq<seq<string>>): (lines: seq<string>) {
    if events == [] then [] else RenderEvent(events[0]) + Render(events[1..])
  }

  /** A line the parser does not shorten: no white space at its end. */
  predicate Clean(line: string) {
    line == "" || !IsSpace(line[|line| - 1])
  }

  lemma {:induction false} TrimRightOf(a: string, b: string)
    ensures TrimRight(a + b) == if TrimRight(b) == "" then TrimRight(a) else a + TrimRight(b)
    decreases |b|
  {
    if b == "" {
      assert a + b == a;
    } else if IsSpace(b[|b| - 1]) {
      assert (a + b)[..|a + b| - 1] == a + b[..|b| - 1];
      TrimRightOf(a, b[..|b| - 1]);
    }
  }

  lemma CutColon(rest: string)
    ensures CutPrefix("data:" + rest, "data:") == Some(if HasPrefix(rest, " ") then rest[1..] else rest)
  {
    var s, colon := "data:" + rest, "data:";
    assert s[..|colon|] == colon && s[|colon|..] == rest;
  }

  lemma TrimmedData(line: string)
    ensures TrimSpace("data:" + line) == "data:" + TrimRight(line)
  {
    TrimRightOf("data:", line);
    assert TrimLeft("data:" + line) == "data:" + line;
    assert TrimRight("data:") == "data:";
    assert "data:" + "" == "data:";
  }

  /** What comes after the colon, without the white space at its end and without one leading space. */
  lemma FieldOfData(line: string)
    ensures var t := TrimRight(line);
            Field("data:" + line) == Some(if HasPrefix(t, " ") then t[1..] else t) && !IsBoundary("data:" + line)
  {
    TrimmedData(line);
    CutColon(TrimRight(line));
    assert |"data:" + TrimRight(line)| >= 5;
  }

  lemma TrimRightOfSpaced(line: string)
    ensures TrimRight(" " + line) == if TrimRight(line) == "" then "" else " " + TrimRight(line)
    ensures var t := TrimRight(" " + line); (if HasPrefix(t, " ") then t[1..] else t) == TrimRight(line)
  {
    TrimRightOf(" ", line);
    assert TrimRight(" ") == "";
    assert (" " + TrimRight(line))[1..] == TrimRight(line);
  }

  lemma TrimRightUnspaced(line: string)
    requires line == "" || line[0] != ' '
    ensures var t := TrimRight(line); (if HasPrefix(t, " ") then t[1..] else t) == t
  {
    TrimRightEnds(line);
  }

  /**
   What is read back from a rendered data line is the line without the white space at its end;
   so a line survives iff it has none. The HTML standard would keep it.
   */
  lemma DataLineReadBack(line: string)
    ensures Field(DATA + line) == Some(TrimRight(line)) && !IsBoundary(DATA + line)
    ensures Field(DATA + line) == Some(line) <==> Clean(line)
  {
    assert DATA + line == "data:" + (" " + line);
    TrimRightOfSpaced(line);
    TrimRightEnds(line);
    FieldOfData(" " + line);
  }

  /** The space after the colon is not part of the line, and need not be there. */
  lemma SpaceIsOptional(line: string)
    requires line == "" || line[0] != ' '
    ensures Field("data:" + line) == Some(TrimRight(line))
  {
    TrimRightUnspaced(line);
    FieldOfData(line);
  }

  /** A line of another kind, a comment or another field, changes no event wherever it stands. */
  lemma {:induction false} OtherLinesIgnored(before: seq<string>, line: string, after: seq<string>, pending: seq<string>)
    requires !IsBoundary(line) && !HasPrefix(TrimSpace(line), "data:")
    ensures Closed(before + [line] + after, pending) == Closed(before + after, pending)
    ensures Open(before + [line] + after, pending) == Open(before + after, pending)
    decreases |before|
  {
    var all := before + [line] + after;
    if before == [] {
      assert all[0] == line && all[1..] == after && before + after == after;
    } else {
      assert all[0] == before[0] && all[1..] == before[1..] + [line] + after;
      assert (before + after)[0] == before[0] && (before + after)[1..] == before[1..] + after;
      var read := if IsBoundary(before[0]) then []
                  else if Field(before[0]).Some? then pending + [Field(before[0]).value]
                  else pending;
      OtherLinesIgnored(before[1..], line, after, read);
    }
  }

  ghost predicate AllClean(events: seq<seq<string>>) {
    forall e :: 0 <= e < |events| ==> events[e] != [] && forall k :: 0 <= k < |events[e]| ==> Clean(events[e][k])
  }

  function Texts(events: seq<seq<string>>): (r: seq<string>) {
    if events == [] then [] else [Join(events[0], '\n')] + Texts(events[1..])
  }

  lemma {:induction false} OneEventReadBack(data: seq<string>, pending: seq<string>, rest: seq<string>)
    requires forall k :: 0 <= k < |data| ==> Clean(data[k])
    ensures Closed(RenderEvent(data) + rest, pending) == Flush(pending + data) + Closed(rest, [])
    ensures Open(RenderEvent(data) + rest, pending) == Open(rest, [])
    decreases |data|
  {
    var lines := RenderEvent(data) + rest;
    if data == [] {
      assert lines[0] == "" && lines[1..] == rest && pending + data == pending;
    } else {
      DataLineReadBack(data[0]);
      assert lines[0] == DATA + data[0] && lines[1..] == RenderEvent(data[1..]) + rest;
      OneEventReadBack(data[1..], pending + [data[0]], rest);
      assert pending + [data[0]] + data[1..] == pending + data;
    }
  }

  /** Parsing recovers exactly the rendered events, in order. */
  lemma {:induction false} EventsReadBack(events: seq<seq<string>>)
    requires AllClean(events)
    ensures Closed(Render(events), []) == Texts(events) == Events(Render(events))
    decreases |events|
  {
    if events != [] {
      OneEventReadBack(events[0], [], Render(events[1..]));
      assert [] + events[0] == events[0];
      EventsReadBack(events[1..]);
      assert Texts(events[1..]) + Flush(Open(Render(events[1..]), [])) == Texts(events[1..]);
    }
  }

  // ----- from the body to its lines -----

  function DropCR(line: string): (r: string) {
    if line != "" && line[|line| - 1] == '\r' then line[..|line| - 1] else line
  }

  function DropCRs(lines: seq<string>): (r: seq<string>)
    ensures |r| == |lines|
  {
    if lines == [] then [] else [DropCR(lines[0])] + DropCRs(lines[1..])
  }

  /** bufio.ScanLines over a whole body: a last line needs no newline, and an empty one is not delivered. */
  function Scan(body: string): (lines: seq<string>) {
    var pieces := Split(body, '\n');
    DropCRs(if pieces[|pieces| - 1] == "" then pieces[..|pieces| - 1] else pieces)
  }

  function Unlines(lines: seq<string>): (body: string) {
    if lines == [] then "" else lines[0] + ['\n'] + Unlines(lines[1..])
  }

  lemma {:induction false} SplitAtLine(line: string, rest: string)
    requires '\n' !in line
    ensures Split(line + ['\n'] + rest, '\n') == [line] + Split(rest, '\n')
  {
    var s := line + ['\n'] + rest;
    if line == "" {
      assert s[0] == '\n' && s[1..] == rest;
    } else {
      assert s[0] == line[0] && s[1..] == line[1..] + ['\n'] + rest;
      SplitAtLine(line[1..], rest);
      assert [line[0]] + line[1..] == line;
    }
  }

  lemma {:induction false} SplitUnlines(lines: seq<string>)
    requires forall k :: 0 <= k < |lines| ==> '\n' !in lines[k]
    ensures Split(Unlines(lines), '\n') == lines + [""]
  {
    if lines != [] {
      SplitAtLine(lines[0], Unlines(lines[1..]));
      SplitUnlines(lines[1..]);
    }
  }

  lemma {:induction false} DropCRsOfClean(lines: seq<string>)
    requires forall k :: 0 <= k < |lines| ==> DropCR(lines[k]) == lines[k]
    ensures DropCRs(lines) == lines
  {
    if lines != [] {
      DropCRsOfClean(lines[1..]);
    }
  }

  function UnlinesCRLF(lines: seq<string>): (body: string) {
    if lines == [] then "" else lines[0] + ['\r'] + ['\n'] + UnlinesCRLF(lines[1..])
  }

  ghost predicate Plain(line: string) {
    '\n' !in line && DropCR(line) == line
  }

  lemma {:induction false} PlainLinesDelivered(lines: seq<string>)
    requires forall k :: 0 <= k < |lines| ==> Plain(lines[k])
    ensures Split(UnlinesCRLF(lines), '\n') == Returns(lines) + [""]
    ensures DropCRs(Returns(lines)) == lines
  {
    if lines != [] {
      var line := lines[0] + ['\r'];
      assert '\n' !in line && line[..|line| - 1] == lines[0];
      SplitAtLine(line, UnlinesCRLF(lines[1..]));
      PlainLinesDelivered(lines[1..]);
    }
  }

  function Returns(lines: seq<string>): (r: seq<string>) {
    if lines == [] then [] else [lines[0] + ['\r']] + Returns(lines[1..])
  }

  lemma ScanLF(lines: seq<string>)
    requires forall k :: 0 <= k < |lines| ==> Plain(lines[k])
    ensures Scan(Unlines(lines)) == lines
  {
    SplitUnlines(lines);
    DropCRsOfClean(lines);
    assert (lines + [""])[..|lines|] == lines;
  }

  lemma ScanCRLF(lines: seq<string>)
    requires forall k :: 0 <= k < |lines| ==> Plain(lines[k])
    ensures Scan(UnlinesCRLF(lines)) == lines
  {
    PlainLinesDelivered(lines);
    assert (Returns(lines) + [""])[..|Returns(lines)|] == Returns(lines);
  }

  lemma ScanPieces(body: string, pieces: seq<string>)
    requires pieces != [] && Split(body, '\n') == pieces && pieces[|pieces| - 1] != ""
    requires forall k :: 0 <= k < |pieces| ==> DropCR(pieces[k]) == pieces[k]
    ensures Scan(body) == pieces
  {
    DropCRsOfClean(pieces);
  }

  lemma AllPlain(lines: seq<string>, last: string)
    requires forall k :: 0 <= k < |lines| ==> Plain(lines[k])
    requires Plain(last)
    ensures forall k :: 0 <= k < |lines + [last]| ==> DropCR((lines + [last])[k]) == (lines + [last])[k]
  {
    var all := lines + [last];
    forall k | 0 <= k < |all|
      ensures DropCR(all[k]) == all[k]
    {
      assert all[k] == if k < |lines| then lines[k] else last;
    }
  }

  /** The scanner takes either line ending, and does not ask for one after the last line. */
  lemma ScanDelivers(lines: seq<string>, last: string)
    requires forall k :: 0 <= k < |lines| ==> Plain(lines[k])
    requires Plain(last)
    ensures Scan(Unlines(lines)) == lines == Scan(UnlinesCRLF(lines))
    ensures last != "" ==> Scan(Unlines(lines) + last) == lines + [last]
  {
    ScanLF(lines);
    ScanCRLF(lines);
    if last != "" {
      SplitAfter(lines, last);
      AllPlain(lines, last);
      ScanPieces(Unlines(lines) + last, lines + [last]);
    }
  }

  lemma {:induction false} SplitAfter(lines: seq<string>, last: string)
    requires forall k :: 0 <= k < |lines| ==> '\n' !in lines[k]
    requires '\n' !in last
    ensures Split(Unlines(lines) + last, '\n') == lines + [last]
  {
    if lines == [] {
      assert Unlines(lines) + last == last;
      SplitWhole(last);
    } else {
      assert Unlines(lines) + last == lines[0] + ['\n'] + (Unlines(lines[1..]) + last);
      SplitAtLine(lines[0], Unlines(lines[1..]) + last);
      SplitAfter(lines[1..], last);
    }
  }

  lemma {:induction false} SplitWhole(line: string)
    requires '\n' !in line
    ensures Split(line, '\n') == [line]
  {
    if line != "" {
      SplitWhole(line[1..]);
      assert [line[0]] + line[1..] == line;
    }
  }

  lemma {:induction false} RenderedLines(events: seq<seq<string>>)
    requires AllClean(events)
    requires forall e, k :: 0 <= e < |events| && 0 <= k < |events[e]| ==> '\n' !in events[e][k]
    ensures forall k :: 0 <= k < |Render(events)| ==> '\n' !in Render(events)[k] && DropCR(Render(events)[k]) == Render(events)[k]
    decreases |events|
  {
    if events != [] {
      RenderedEventLines(events[0]);
      RenderedLines(events[1..]);
    }
  }

  lemma {:induction false} RenderedEventLines(data: seq<string>)
    requires forall k :: 0 <= k < |data| ==> Clean(data[k]) && '\n' !in data[k]
    ensures forall k :: 0 <= k < |RenderEvent(data)| ==>
              '\n' !in RenderEvent(data)[k] && DropCR(RenderEvent(data)[k]) == RenderEvent(data)[k]
  {
    if data != [] {
      RenderedEventLines(data[1..]);
    }
  }

  /**
   The whole round trip: events rendered to a body, scanned, parsed without interruption, give the
   run-together text of the chunks before the first [DONE].
   */
  lemma BodyRoundTrip(events: seq<seq<string>>, k: nat, decode: string -> Decoded)
    requires AllClean(events)
    requires forall e, j :: 0 <= e < |events| && 0 <= j < |events[e]| ==> '\n' !in events[e][j]
    requires DoneAt(Texts(events), k, decode)
    ensures var lines := Scan(Unlines(Render(events)));
            var r := Meaning(lines, false, |lines| + 1, decode);
            && Events(lines) == Texts(events)
            && r.Finished? && r.o.Complete?
            && r.o.text == Concat(r.p.deltas) == TextOf(Texts(events)[..k], decode)
            && r.o.tokens == CountOf(Texts(events)[..k], decode)
  {
    var lines := Render(events);
    RenderedLines(events);
    SplitUnlines(lines);
    assert (lines + [""])[..|lines|] == lines;
    DropCRsOfClean(lines);
    EventsReadBack(events);
    CompletedText(Texts(events), k, decode);
  }
}
