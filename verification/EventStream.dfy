/**
 The event reader of codex in scripts/supervisor/runner.py (lines 229-283): standard
 output arrives in parts cut anywhere, whole lines are decoded, and at most one session
 identifier is accepted. JSON decoding is the parameter `decode`.
 */
module EventStream {
  import opened Options

  type Byte = x: int | 0 <= x < 256
  type Bytes = seq<Byte>
  type SessionId = string

  const NEWLINE: Byte := 10
  const BUFFER_LIMIT: nat := 2 * 1024 * 1024
  const PART_LIMIT: nat := 65536

  /**
   A decoded line. `Started(None)` is a thread.started event whose thread_id is not 36
   lower-case hexadecimal digits and dashes; `NotObject` is JSON that is not an object.
   */
  datatype Event = NotJson | NotObject | Unrelated | Started(thread: Option<SessionId>)

  datatype Fault = BadSession | SessionChanged | Overflow | NotAnObject

  datatype Reading = Session(id: Option<SessionId>) | Stopped(fault: Fault)

  function IndexOf(s: Bytes): (i: nat)
    requires NEWLINE in s
    ensures i < |s| && s[i] == NEWLINE && NEWLINE !in s[..i]
  {
    if s[0] == NEWLINE then 0 else 1 + IndexOf(s[1..])
  }

  /** The lines of a byte string that are complete. */
  function Lines(s: Bytes): seq<Bytes>
    decreases |s|
  {
    if NEWLINE !in s then [] else [s[..IndexOf(s)]] + Lines(s[IndexOf(s) + 1..])
  }

  /** What follows the last newline. */
  function Rest(s: Bytes): Bytes
    decreases |s|
  {
    if NEWLINE !in s then s else Rest(s[IndexOf(s) + 1..])
  }

  function Join(lines: seq<Bytes>, rest: Bytes): Bytes {
    if lines == [] then rest else lines[0] + [NEWLINE] + Join(lines[1..], rest)
  }

  function Flatten(parts: seq<Bytes>): Bytes {
    if parts == [] then [] else Flatten(parts[..|parts| - 1]) + parts[|parts| - 1]
  }

  /** One complete line while the process runs. */
  function OnLine(session: Option<SessionId>, event: Event): Reading {
    match event
    case NotJson => Session(session)
    case NotObject => Stopped(NotAnObject)
    case Unrelated => Session(session)
    case Started(None) => Stopped(BadSession)
    case Started(Some(id)) =>
      if session.Some? && session.value != id then Stopped(SessionChanged) else Session(Some(id))
  }

  /** The bytes left when the process has closed its output; a malformed id is ignored here. */
  function OnRest(session: Option<SessionId>, event: Event): Reading {
    if event == Started(None) then Session(session) else OnLine(session, event)
  }

  function OnLines(session: Option<SessionId>, lines: seq<Bytes>, decode: Bytes -> Event): (r: Reading)
    ensures r != Stopped(Overflow)
  {
    if lines == [] then Session(session)
    else
      match OnLines(session, lines[..|lines| - 1], decode)
      case Stopped(fault) => Stopped(fault)
      case Session(id) => OnLine(id, decode(lines[|lines| - 1]))
  }

  /** The reading of a whole stream, with no notion of parts. */
  function Interpret(stream: Bytes, decode: Bytes -> Event): Reading {
    match OnLines(None, Lines(stream), decode)
    case Stopped(fault) => Stopped(fault)
    case Session(id) => if Rest(stream) == [] then Session(id) else OnRest(id, decode(Rest(stream)))
  }

  /** After `k` parts nothing has failed and an unfinished line is over the limit. */
  predicate OverLimit(parts: seq<Bytes>, k: nat, decode: Bytes -> Event)
    requires k <= |parts|
  {
    && k > 0
    && OnLines(None, Lines(Flatten(parts[..k])), decode).Session?
    && |Rest(Flatten(parts[..k]))| > BUFFER_LIMIT
  }

  lemma {:induction false} IndexOfIs(s: Bytes, i: nat)
    requires i < |s| && s[i] == NEWLINE && forall j :: 0 <= j < i ==> s[j] != NEWLINE
    ensures NEWLINE in s && IndexOf(s) == i
  {
    if s[0] != NEWLINE {
      IndexOfIs(s[1..], i - 1);
    }
  }

  /** Lines and Rest are the only newline-free pieces that make up the stream. */
  lemma {:induction false} SplitIsJoinInverse(s: Bytes)
    ensures Join(Lines(s), Rest(s)) == s
    ensures NEWLINE !in Rest(s) && forall line :: line in Lines(s) ==> NEWLINE !in line
    decreases |s|
  {
    if NEWLINE in s {
      var i := IndexOf(s);
      SplitIsJoinInverse(s[i + 1..]);
      assert s == s[..i] + [NEWLINE] + s[i + 1..];
    }
  }

  /** A first line can be taken off a stream whatever comes after it. */
  lemma LinesCons(s: Bytes, line: Bytes, tail: Bytes)
    requires s == line + [NEWLINE] + tail && NEWLINE !in line
    ensures Lines(s) == [line] + Lines(tail)
    ensures Rest(s) == Rest(tail)
  {
    forall j | 0 <= j < |line|
      ensures s[j] != NEWLINE
    {
      assert s[j] == line[j];
    }
    IndexOfIs(s, |line|);
    assert s[..|line|] == line && s[|line| + 1..] == tail;
  }

  lemma {:induction false} JoinIsSplitInverse(lines: seq<Bytes>, rest: Bytes)
    requires NEWLINE !in rest && forall line :: line in lines ==> NEWLINE !in line
    ensures Lines(Join(lines, rest)) == lines && Rest(Join(lines, rest)) == rest
  {
    if lines != [] {
      assert lines[0] in lines;
      JoinIsSplitInverse(lines[1..], rest);
      LinesCons(Join(lines, rest), lines[0], Join(lines[1..], rest));
      assert lines == [lines[0]] + lines[1..];
    }
  }

  /** The lines of `a + b` are those of `a` and then those of what `a` leaves followed by `b`. */
  predicate SplitsAt(a: Bytes, b: Bytes) {
    Lines(a + b) == Lines(a) + Lines(Rest(a) + b) && Rest(a + b) == Rest(Rest(a) + b)
  }

  /** Cutting a stream in two does not change its lines. */
  lemma {:induction false} SplitOfConcat(a: Bytes, b: Bytes)
    ensures SplitsAt(a, b)
    decreases |a|
  {
    if NEWLINE in a {
      var i := IndexOf(a);
      SplitOfConcat(a[i + 1..], b);
      SplitCons(a, a[..i], a[i + 1..], b);
    }
  }

  lemma SplitCons(a: Bytes, line: Bytes, tail: Bytes, b: Bytes)
    requires a == line + [NEWLINE] + tail && NEWLINE !in line && SplitsAt(tail, b)
    ensures SplitsAt(a, b)
  {
    LinesCons(a, line, tail);
    assert a + b == line + [NEWLINE] + (tail + b);
    LinesCons(a + b, line, tail + b);
    PutsInFront(line, Lines(tail), Lines(Rest(tail) + b));
  }

  lemma PutsInFront(line: Bytes, xs: seq<Bytes>, ys: seq<Bytes>)
    ensures [line] + (xs + ys) == ([line] + xs) + ys
  {
  }

  lemma {:induction false} OnLinesAppend(session: Option<SessionId>, xs: seq<Bytes>, ys: seq<Bytes>, decode: Bytes -> Event)
    ensures OnLines(session, xs + ys, decode)
         == Continue(OnLines(session, xs, decode), ys, decode)
    decreases |ys|
  {
    if ys == [] {
      assert xs + ys == xs;
    } else {
      var y0 := ys[..|ys| - 1];
      assert (xs + ys)[..|xs + ys| - 1] == xs + y0;
      OnLinesAppend(session, xs, y0, decode);
    }
  }

  /** Reading on from a result. */
  function Continue(r: Reading, lines: seq<Bytes>, decode: Bytes -> Event): Reading {
    if r.Stopped? then r else OnLines(r.id, lines, decode)
  }

  lemma OnLinesCons(session: Option<SessionId>, line: Bytes, lines: seq<Bytes>, decode: Bytes -> Event)
    ensures OnLines(session, [line] + lines, decode) == Continue(OnLine(session, decode(line)), lines, decode)
  {
    OnLinesAppend(session, [line], lines, decode);
    assert [line][..0] == [];
  }

  /** Every session event of an accepted prefix names the one accepted session. */
  lemma {:induction false} OneSession(lines: seq<Bytes>, decode: Bytes -> Event)
    requires OnLines(None, lines, decode).Session?
    ensures forall line :: line in lines && decode(line).Started? ==>
              decode(line).thread.Some? && decode(line).thread == OnLines(None, lines, decode).id
    ensures OnLines(None, lines, decode).id.Some? ==> exists line :: line in lines && decode(line).Started?
  {
    if lines != [] {
      var n := |lines| - 1;
      OneSession(lines[..n], decode);
      assert lines == lines[..n] + [lines[n]];
      if OnLines(None, lines, decode).id.Some? && !decode(lines[n]).Started? {
        var line :| line in lines[..n] && decode(line).Started?;
        assert line in lines;
      }
    }
  }

  /** Lines that can be read: objects, sessions well formed, and all sessions the same. */
  predicate Readable(lines: seq<Bytes>, decode: Bytes -> Event) {
    && (forall line :: line in lines ==> decode(line) != NotObject && decode(line) != Started(None))
    && (forall a, b :: a in lines && b in lines && decode(a).Started? && decode(b).Started? ==> decode(a) == decode(b))
  }

  predicate Names(lines: seq<Bytes>, decode: Bytes -> Event, id: SessionId) {
    exists line :: line in lines && decode(line) == Started(Some(id))
  }

  /** Complete lines are accepted exactly if they are readable, and give the session they name. */
  lemma {:induction false} AcceptedLinesAre(lines: seq<Bytes>, decode: Bytes -> Event)
    ensures OnLines(None, lines, decode).Session? <==> Readable(lines, decode)
    ensures OnLines(None, lines, decode).Session? ==>
      forall id :: OnLines(None, lines, decode).id == Some(id) <==> Names(lines, decode, id)
  {
    if lines != [] {
      var n := |lines| - 1;
      AcceptedLinesAre(lines[..n], decode);
      MemberSplit(lines);
      LastLine(lines[..n], lines[n], OnLines(None, lines[..n], decode), decode);
      assert lines == lines[..n] + [lines[n]];
    }
  }

  lemma MemberSplit(lines: seq<Bytes>)
    requires lines != []
    ensures forall line :: line in lines <==> line in lines[..|lines| - 1] || line == lines[|lines| - 1]
  {
  }

  lemma LastLine(before: seq<Bytes>, last: Bytes, r: Reading, decode: Bytes -> Event)
    requires r.Session? <==> Readable(before, decode)
    requires r.Session? ==> forall id :: r.id == Some(id) <==> Names(before, decode, id)
    ensures
      var after := if r.Stopped? then r else OnLine(r.id, decode(last));
      && (after.Session? <==> Readable(before + [last], decode))
      && (after.Session? ==> forall id :: after.id == Some(id) <==> Names(before + [last], decode, id))
  {
    assert forall line :: line in before + [last] <==> line in before || line == last;
    assert last in before + [last];
    if r.Session? && decode(last).Started? && decode(last).thread.Some? {
      assert r.id.Some? ==> Names(before, decode, r.id.value);
    }
  }

  /** What the unterminated last line says, if there is one: there a malformed session is no fault. */
  predicate RestFits(lines: seq<Bytes>, rest: Bytes, decode: Bytes -> Event) {
    rest != [] ==>
      && decode(rest) != NotObject
      && forall line :: line in lines && decode(line).Started? && decode(rest).Started? && decode(rest).thread.Some? ==>
           decode(line) == decode(rest)
  }

  predicate RestNames(rest: Bytes, decode: Bytes -> Event, id: SessionId) {
    rest != [] && decode(rest) == Started(Some(id))
  }

  /**
   A stream is accepted exactly if its lines are readable and its unterminated end fits; the
   session is the one that a line or the end names, and none if none does.
   */
  lemma AcceptedStreamIs(stream: Bytes, decode: Bytes -> Event)
    ensures Interpret(stream, decode).Session? <==>
      Readable(Lines(stream), decode) && RestFits(Lines(stream), Rest(stream), decode)
    ensures Interpret(stream, decode).Session? ==>
      forall id :: Interpret(stream, decode).id == Some(id)
        <==> Names(Lines(stream), decode, id) || RestNames(Rest(stream), decode, id)
  {
    var lines, rest := Lines(stream), Rest(stream);
    AcceptedLinesAre(lines, decode);
    var read := OnLines(None, lines, decode);
    if read.Session? && rest != [] {
      RestIsRead(lines, rest, read.id, decode);
    }
  }

  lemma RestIsRead(lines: seq<Bytes>, rest: Bytes, session: Option<SessionId>, decode: Bytes -> Event)
    requires rest != [] && Readable(lines, decode) && forall id :: session == Some(id) <==> Names(lines, decode, id)
    ensures OnRest(session, decode(rest)).Session? <==> RestFits(lines, rest, decode)
    ensures OnRest(session, decode(rest)).Session? ==>
      forall id :: OnRest(session, decode(rest)).id == Some(id) <==> Names(lines, decode, id) || RestNames(rest, decode, id)
  {
    if session.Some? {
      assert Names(lines, decode, session.value);
    }
    forall line | line in lines && decode(line).Started?
      ensures session == decode(line).thread
    {
      assert Names(lines, decode, decode(line).thread.value);
    }
  }

  /** Every fault that is reported is there. */
  predicate Present(lines: seq<Bytes>, decode: Bytes -> Event, fault: Fault) {
    match fault
    case NotAnObject => exists line :: line in lines && decode(line) == NotObject
    case BadSession => exists line :: line in lines && decode(line) == Started(None)
    case SessionChanged =>
      exists a, b :: a in lines && b in lines && decode(a).Started? && decode(b).Started? && decode(a) != decode(b)
    case Overflow => false
  }

  lemma {:induction false} FaultIsPresent(lines: seq<Bytes>, decode: Bytes -> Event)
    requires OnLines(None, lines, decode).Stopped?
    ensures Present(lines, decode, OnLines(None, lines, decode).fault)
  {
    var n := |lines| - 1;
    MemberSplit(lines);
    var before := OnLines(None, lines[..n], decode);
    if before.Stopped? {
      FaultIsPresent(lines[..n], decode);
      PresenceGrows(lines[..n], lines, decode, before.fault);
    } else {
      AcceptedLinesAre(lines[..n], decode);
      if before.id.Some? {
        assert Names(lines[..n], decode, before.id.value);
      }
    }
  }

  lemma PresenceGrows(few: seq<Bytes>, many: seq<Bytes>, decode: Bytes -> Event, fault: Fault)
    requires Present(few, decode, fault) && forall line :: line in few ==> line in many
    ensures Present(many, decode, fault)
  {
    if fault == SessionChanged {
      var a, b :| a in few && b in few && decode(a).Started? && decode(b).Started? && decode(a) != decode(b);
      assert a in many && b in many;
    }
  }

  /** So it is at the end of the stream, but for a malformed session there. */
  lemma StreamFaultIsPresent(stream: Bytes, decode: Bytes -> Event)
    requires Interpret(stream, decode).Stopped?
    ensures Present(Lines(stream) + [Rest(stream)], decode, Interpret(stream, decode).fault)
    ensures Interpret(stream, decode).fault == BadSession ==> Present(Lines(stream), decode, BadSession)
  {
    var lines, rest := Lines(stream), Rest(stream);
    assert forall line :: line in lines + [rest] <==> line in lines || line == rest;
    if OnLines(None, lines, decode).Stopped? {
      FaultIsPresent(lines, decode);
      PresenceGrows(lines, lines + [rest], decode, OnLines(None, lines, decode).fault);
    } else {
      AcceptedLinesAre(lines, decode);
      var session := OnLines(None, lines, decode).id;
      assert rest in lines + [rest];
      if session.Some? {
        assert Names(lines, decode, session.value);
      }
    }
  }

  lemma {:induction false} FlattenLast(parts: seq<Bytes>, k: nat)
    requires k < |parts|
    ensures Flatten(parts[..k + 1]) == Flatten(parts[..k]) + parts[k]
  {
    assert parts[..k + 1][..k] == parts[..k];
  }

  /** A fault in a prefix of the stream is the fault of the stream. */
  lemma {:induction false} FaultPersists(parts: seq<Bytes>, k: nat, decode: Bytes -> Event)
    requires k <= |parts| && OnLines(None, Lines(Flatten(parts[..k])), decode).Stopped?
    ensures Interpret(Flatten(parts), decode) == OnLines(None, Lines(Flatten(parts[..k])), decode)
    ensures OnLines(None, Lines(Flatten(parts)), decode) == OnLines(None, Lines(Flatten(parts[..k])), decode)
    decreases |parts| - k
  {
    if k == |parts| {
      assert parts[..k] == parts;
    } else {
      PartAdds(parts, k, decode);
      FaultPersists(parts, k + 1, decode);
    }
  }

  /** The unfinished line after some parts is part of one line, or of the end, of the stream. */
  lemma {:induction false} UnfinishedIsWithinLine(parts: seq<Bytes>, k: nat)
    requires k <= |parts|
    ensures |Rest(Flatten(parts))| >= |Rest(Flatten(parts[..k]))|
         || exists line :: line in Lines(Flatten(parts)) && |line| >= |Rest(Flatten(parts[..k]))|
    decreases |parts| - k
  {
    if k == |parts| {
      assert parts[..k] == parts;
    } else {
      var a, b := Flatten(parts[..k]), Flatten(parts);
      var tail := TailAfter(parts, k);
      SplitOfConcat(a, tail);
      var joined := Rest(a) + tail;
      SplitIsJoinInverse(a);
      if NEWLINE in joined {
        var i := IndexOf(joined);
        assert i >= |Rest(a)| by {
          assert joined[..|Rest(a)|] == Rest(a);
          assert joined[i] == NEWLINE;
        }
        assert Lines(joined)[0] == joined[..i];
        assert joined[..i] in Lines(b);
      }
    }
  }

  lemma {:induction false} TailAfter(parts: seq<Bytes>, k: nat) returns (tail: Bytes)
    requires k <= |parts|
    ensures Flatten(parts) == Flatten(parts[..k]) + tail
    decreases |parts| - k
  {
    if k == |parts| {
      assert parts[..k] == parts;
      tail := [];
    } else {
      FlattenLast(parts, k);
      var t := TailAfter(parts, k + 1);
      tail := parts[k] + t;
    }
  }

  /** The inner loop (lines 253-268): hand over every complete line of the buffer. */
  method DrainLines(session: Option<SessionId>, buffer: Bytes, decode: Bytes -> Event)
    returns (r: Reading, rest: Bytes)
    ensures r == OnLines(session, Lines(buffer), decode)
    ensures r.Session? ==> rest == Rest(buffer)
    ensures |rest| <= |buffer|
  {
    r, rest := Session(session), buffer;
    while r.Session? && NEWLINE in rest
      invariant OnLines(session, Lines(buffer), decode) == Continue(r, Lines(rest), decode)
      invariant r.Session? ==> Rest(buffer) == Rest(rest)
      invariant |rest| <= |buffer|
      decreases |rest|
    {
      var i := IndexOf(rest);
      var line := rest[..i];
      OnLinesCons(r.id, line, Lines(rest[i + 1..]), decode);
      r, rest := OnLine(r.id, decode(line)), rest[i + 1..];
    }
  }

  /**
   The read loop. Its answer is a function of the stream alone unless it overflows, and it
   overflows exactly when a part ends with an unfinished line over the limit. `read` parts have
   been read, all of them unless it stops, and none has made the buffer longer than 2 MiB and 64 KiB.
   */
  method ReadEvents(parts: seq<Bytes>, decode: Bytes -> Event) returns (r: Reading, ghost read: nat)
    requires forall part :: part in parts ==> 0 < |part| <= 65536
    ensures read <= |parts| && (r.Session? ==> read == |parts|)
    ensures read < |parts| ==> read > 0
    ensures forall k: nat :: k < read ==> BufferFits(parts, k)
    ensures r != Stopped(Overflow) ==> r == Interpret(Flatten(parts), decode)
    ensures r == Stopped(Overflow) <==> !NeverOverLimit(parts, |parts|, decode)
    ensures r == Stopped(Overflow) ==> HasLongLine(Flatten(parts), 2097152)
  {
    var buffer: Bytes := [];
    r, read := Session(None), 0;
    for k := 0 to |parts|
      invariant r.Session? && Reads(parts, k, r.id, buffer, decode)
      invariant read == k && forall j: nat :: j < k ==> BufferFits(parts, j)
    {
      r, buffer := ReadPart(parts, k, r.id, buffer, decode);
      read := k + 1;
      if r.Stopped? {
        return;
      }
    }
    LastPart(parts, r.id, buffer, decode);
    if buffer != [] {
      r := OnRest(r.id, decode(buffer));
    }
  }

  /** One turn of the loop (lines 247-270). */
  method ReadPart(parts: seq<Bytes>, k: nat, session: Option<SessionId>, buffer: Bytes, decode: Bytes -> Event)
    returns (r: Reading, rest: Bytes)
    requires forall part :: part in parts ==> 0 < |part| <= 65536
    requires k < |parts| && Reads(parts, k, session, buffer, decode)
    ensures BufferFits(parts, k)
    ensures r.Session? ==> Reads(parts, k + 1, r.id, rest, decode)
    ensures r.Stopped? && r != Stopped(Overflow) ==>
      r == Interpret(Flatten(parts), decode) && NeverOverLimit(parts, |parts|, decode)
    ensures r == Stopped(Overflow) ==>
      !NeverOverLimit(parts, |parts|, decode) && HasLongLine(Flatten(parts), BUFFER_LIMIT)
  {
    r, rest := DrainLines(session, buffer + parts[k], decode);
    NextPart(parts, k, session, buffer, r, rest, decode);
    if r.Session? && |rest| > BUFFER_LIMIT {
      r := Stopped(Overflow);
    }
  }

  /** Some line of the stream, or its unfinished end, is longer than the limit. */
  predicate HasLongLine(stream: Bytes, limit: nat) {
    |Rest(stream)| > limit || exists line :: line in Lines(stream) && |line| > limit
  }

  /** The loop has read `k` parts: where it stands is a function of their concatenation. */
  ghost predicate Reads(parts: seq<Bytes>, k: nat, session: Option<SessionId>, buffer: Bytes, decode: Bytes -> Event)
    requires k <= |parts|
  {
    && buffer == Rest(Flatten(parts[..k])) && |buffer| <= BUFFER_LIMIT
    && OnLines(None, Lines(Flatten(parts[..k])), decode) == Session(session)
    && NeverOverLimit(parts, k, decode)
  }

  /** The buffer with part `k` is within 2 MiB and 64 KiB. */
  predicate BufferFits(parts: seq<Bytes>, k: nat)
    requires k < |parts|
  {
    |Rest(Flatten(parts[..k])) + parts[k]| <= 2162688
  }

  lemma PartFits(parts: seq<Bytes>, k: nat, session: Option<SessionId>, buffer: Bytes, decode: Bytes -> Event)
    requires k < |parts| && Reads(parts, k, session, buffer, decode) && forall part :: part in parts ==> |part| <= 65536
    ensures BufferFits(parts, k)
  {
    assert parts[k] in parts;
  }

  lemma NextPart(parts: seq<Bytes>, k: nat, session: Option<SessionId>, buffer: Bytes,
                 drained: Reading, rest: Bytes, decode: Bytes -> Event)
    requires k < |parts| && Reads(parts, k, session, buffer, decode)
    requires drained == OnLines(session, Lines(buffer + parts[k]), decode)
    requires drained.Session? ==> rest == Rest(buffer + parts[k])
    requires forall part :: part in parts ==> 0 < |part| <= 65536
    ensures BufferFits(parts, k)
    ensures drained.Stopped? ==> drained == Interpret(Flatten(parts), decode) && NeverOverLimit(parts, |parts|, decode)
    ensures drained.Session? && |rest| <= BUFFER_LIMIT ==> Reads(parts, k + 1, drained.id, rest, decode)
    ensures drained.Session? && |rest| > BUFFER_LIMIT ==>
      !NeverOverLimit(parts, |parts|, decode) && HasLongLine(Flatten(parts), BUFFER_LIMIT)
  {
    PartFits(parts, k, session, buffer, decode);
    PartAdds(parts, k, decode);
    if drained.Stopped? {
      FaultPersists(parts, k + 1, decode);
      FaultEndsOverflow(parts, k, decode);
    } else if |rest| > BUFFER_LIMIT {
      assert OverLimit(parts, k + 1, decode);
      UnfinishedIsWithinLine(parts, k + 1);
    }
  }

  lemma LastPart(parts: seq<Bytes>, session: Option<SessionId>, buffer: Bytes, decode: Bytes -> Event)
    requires Reads(parts, |parts|, session, buffer, decode)
    ensures Interpret(Flatten(parts), decode)
         == if buffer == [] then Session(session) else OnRest(session, decode(buffer))
  {
    assert parts[..|parts|] == parts;
  }

  /** Lines end with the byte 10. */
  lemma LineFeedEndsLines(line: Bytes)
    requires forall i :: 0 <= i < |line| ==> line[i] != 10
    ensures Lines(line + [10]) == [line] && Rest(line + [10]) == [] && Lines(line) == []
  {
    JoinIsSplitInverse([line], []);
    JoinIsSplitInverse([], line);
    assert [line][1..] == [] && Join([line], []) == line + [NEWLINE] + [];
  }

  /** A line that no buffer can hold is always refused, however the stream is cut, unless a fault comes first. */
  lemma LongLineOverflows(parts: seq<Bytes>, decode: Bytes -> Event)
    requires forall part :: part in parts ==> 0 < |part| <= PART_LIMIT
    requires HasLongLine(Flatten(parts), 2162688)
    requires OnLines(None, Lines(Flatten(parts)), decode).Session?
    ensures !NeverOverLimit(parts, |parts|, decode)
  {
    var k := LongLineBuilds(parts);
    if OnLines(None, Lines(Flatten(parts[..k])), decode).Stopped? {
      FaultPersists(parts, k, decode);
    }
    assert OverLimit(parts, k, decode);
  }

  lemma {:induction false} LongLineBuilds(parts: seq<Bytes>) returns (k: nat)
    requires forall part :: part in parts ==> 0 < |part| <= PART_LIMIT
    requires HasLongLine(Flatten(parts), BUFFER_LIMIT + PART_LIMIT)
    ensures 0 < k <= |parts| && |Rest(Flatten(parts[..k]))| > BUFFER_LIMIT
  {
    var n := |parts| - 1;
    var before := Flatten(parts[..n]);
    if |Rest(before)| > BUFFER_LIMIT {
      k := n;
    } else if HasLongLine(before, BUFFER_LIMIT + PART_LIMIT) {
      k := LongLineBuilds(parts[..n]);
      assert parts[..n][..k] == parts[..k];
    } else {
      SplitOfConcat(before, parts[n]);
      PiecesAreShorter(Rest(before) + parts[n]);
      assert false;
    }
  }

  lemma {:induction false} PiecesAreShorter(s: Bytes)
    ensures |Rest(s)| <= |s| && forall line :: line in Lines(s) ==> |line| <= |s|
    decreases |s|
  {
    if NEWLINE in s {
      PiecesAreShorter(s[IndexOf(s) + 1..]);
    }
  }

  /** How one more part changes the reading so far. */
  lemma PartAdds(parts: seq<Bytes>, k: nat, decode: Bytes -> Event)
    requires k < |parts|
    ensures
      var a, buffer := Flatten(parts[..k]), Rest(Flatten(parts[..k])) + parts[k];
      && Rest(Flatten(parts[..k + 1])) == Rest(buffer)
      && OnLines(None, Lines(Flatten(parts[..k + 1])), decode)
      == Continue(OnLines(None, Lines(a), decode), Lines(buffer), decode)
  {
    var a := Flatten(parts[..k]);
    FlattenLast(parts, k);
    SplitOfConcat(a, parts[k]);
    OnLinesAppend(None, Lines(a), Lines(Rest(a) + parts[k]), decode);
  }

  lemma FaultExcludesOverflow(parts: seq<Bytes>, k: nat, j: nat, decode: Bytes -> Event)
    requires k <= j <= |parts| && OnLines(None, Lines(Flatten(parts[..k])), decode).Stopped?
    ensures !OverLimit(parts, j, decode)
  {
    assert parts[..j][..k] == parts[..k];
    FaultPersists(parts[..j], k, decode);
  }

  ghost predicate NeverOverLimit(parts: seq<Bytes>, n: nat, decode: Bytes -> Event)
    requires n <= |parts|
  {
    forall j: nat :: j <= n ==> !OverLimit(parts, j, decode)
  }

  /** After a fault nothing overflows any more. */
  lemma FaultEndsOverflow(parts: seq<Bytes>, k: nat, decode: Bytes -> Event)
    requires k < |parts| && OnLines(None, Lines(Flatten(parts[..k + 1])), decode).Stopped?
    requires NeverOverLimit(parts, k, decode)
    ensures NeverOverLimit(parts, |parts|, decode)
  {
    forall j: nat | j <= |parts|
      ensures !OverLimit(parts, j, decode)
    {
      if j > k {
        FaultExcludesOverflow(parts, k + 1, j, decode);
      }
    }
  }
}
