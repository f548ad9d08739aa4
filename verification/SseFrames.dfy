/**
 The fields of one raw frame and the read loop of frontend/src/lib/sse.ts, proved against the
 reading functions of SseReader.
 */
module SseFrames {
  import opened SseReader

  /** What the stream's handlers are told: onHeartbeat, or onFrame with the frame. */
  datatype Signal = Heartbeat | Frame(event: string, data: string)

  // ---------------------------------------------------------------- string helpers

  /** The white space that `trim` removes (WhiteSpace and LineTerminator of ECMA-262). */
  predicate IsSpace(c: char) {
    || c == '\t' || c == '\n' || c == '\r' || c == ' ' || c == '\U{000B}' || c == '\U{000C}' || c == '\U{00A0}'
    || c == '\U{FEFF}' || c == '\U{1680}' || c == '\U{2028}' || c == '\U{2029}' || c == '\U{202F}'
    || c == '\U{205F}' || c == '\U{3000}' || '\U{2000}' <= c <= '\U{200A}'
  }

  function TrimStart(s: string): string {
    if s != "" && IsSpace(s[0]) then TrimStart(s[1..]) else s
  }

  function TrimEnd(s: string): string {
    if s != "" && IsSpace(s[|s| - 1]) then TrimEnd(s[..|s| - 1]) else s
  }

  function Trim(s: string): string {
    TrimEnd(TrimStart(s))
  }

  predicate AllSpace(s: string) {
    forall i | 0 <= i < |s| :: IsSpace(s[i])
  }

  lemma {:induction false} TrimmedStart(s: string) returns (n: nat)
    ensures n <= |s| && AllSpace(s[..n]) && TrimStart(s) == s[n..]
    ensures TrimStart(s) != "" ==> !IsSpace(TrimStart(s)[0])
  {
    n := 0;
    if s != "" && IsSpace(s[0]) {
      var m := TrimmedStart(s[1..]);
      n := m + 1;
      assert s[1..][m..] == s[n..] && s[..n] == [s[0]] + s[1..][..m];
    }
  }

  lemma {:induction false} TrimmedEnd(s: string) returns (n: nat)
    ensures n <= |s| && AllSpace(s[n..]) && TrimEnd(s) == s[..n]
    ensures TrimEnd(s) != "" ==> !IsSpace(TrimEnd(s)[|TrimEnd(s)| - 1])
  {
    n := |s|;
    if s != "" && IsSpace(s[|s| - 1]) {
      n := TrimmedEnd(s[..|s| - 1]);
      assert s[..|s| - 1][..n] == s[..n] && s[n..] == s[..|s| - 1][n..] + [s[|s| - 1]];
    }
  }

  /** Trimming takes white space off both ends, all of it, and nothing else. */
  lemma TrimMeans(s: string) returns (i: nat, j: nat)
    ensures i <= j <= |s| && Trim(s) == s[i..j] && AllSpace(s[..i]) && AllSpace(s[j..])
    ensures i < j ==> !IsSpace(s[i]) && !IsSpace(s[j - 1])
  {
    i := TrimmedStart(s);
    var n := TrimmedEnd(s[i..]);
    j := i + n;
    assert s[i..][..n] == s[i..j] && s[i..][n..] == s[j..];
  }

  /** `split("\n")` */
  function Lines(s: string): (lines: seq<string>)
    ensures lines != []
  {
    if s == "" then [""]
    else
      var later := Lines(s[1..]);
      if s[0] == '\n' then [""] + later else [[s[0]] + later[0]] + later[1..]
  }

  /** `join("\n")` */
  function Join(parts: seq<string>): string {
    if parts == [] then ""
    else if |parts| == 1 then parts[0]
    else parts[0] + "\n" + Join(parts[1..])
  }

  // ---------------------------------------------------------------- one frame

  const COMMENT := ":"
  const EVENT := "event:"
  const DATA := "data:"

  /** The value of the last event field; without one the type is "message". */
  function EventOf(lines: seq<string>): string {
    if lines == [] then "message"
    else
      var line := lines[|lines| - 1];
      if EVENT <= line then Trim(line[|EVENT|..]) else EventOf(lines[..|lines| - 1])
  }

  /** The values of the data fields, in order. */
  function DataOf(lines: seq<string>): seq<string> {
    if lines == [] then []
    else
      var line := lines[|lines| - 1];
      DataOf(lines[..|lines| - 1]) + if DATA <= line then [Trim(line[|DATA|..])] else []
  }

  predicate CommentsOnly(lines: seq<string>) {
    forall i | 0 <= i < |lines| :: COMMENT <= lines[i]
  }

  /** What a raw frame means. */
  function Interpret(raw: string): Signal {
    var lines := Lines(raw);
    if CommentsOnly(lines) then Heartbeat else Frame(EventOf(lines), Join(DataOf(lines)))
  }

  function InterpretAll(raws: seq<string>): seq<Signal> {
    seq(|raws|, i requires 0 <= i < |raws| => Interpret(raws[i]))
  }

  lemma InterpretConcat(a: seq<string>, b: seq<string>)
    ensures InterpretAll(a + b) == InterpretAll(a) + InterpretAll(b)
  {
    forall i | 0 <= i < |a + b| ensures InterpretAll(a + b)[i] == (InterpretAll(a) + InterpretAll(b))[i] {
      assert (a + b)[i] == if i < |a| then a[i] else b[i - |a|];
    }
  }

  method ProcessFrame(raw: string) returns (signal: Signal)
    ensures signal == Interpret(raw)
  {
    var lines := Lines(raw);
    var event := "message";
    var dataLines: seq<string> := [];
    var isCommentOnly := true;
    var i := 0;
    while i < |lines|
      invariant 0 <= i <= |lines|
      invariant isCommentOnly <==> CommentsOnly(lines[..i])
      invariant event == EventOf(lines[..i])
      invariant dataLines == DataOf(lines[..i])
    {
      var line := lines[i];
      assert lines[..i + 1][..i] == lines[..i] && lines[..i + 1][i] == line;
      CommentsOnlyNext(lines, i);
      i := i + 1;
      if COMMENT <= line {
        assert line[0] == ':';
        continue;
      }
      isCommentOnly := false;
      if EVENT <= line {
        event := Trim(line[|EVENT|..]);
        assert line[0] == 'e';
      } else if DATA <= line {
        dataLines := dataLines + [Trim(line[|DATA|..])];
      }
    }
    assert lines[..i] == lines;
    if isCommentOnly {
      return Heartbeat;
    }
    return Frame(event, Join(dataLines));
  }

  lemma CommentsOnlyNext(lines: seq<string>, i: nat)
    requires i < |lines|
    ensures CommentsOnly(lines[..i + 1]) <==> CommentsOnly(lines[..i]) && COMMENT <= lines[i]
  {
    assert lines[..i + 1][i] == lines[i];
    assert forall k | 0 <= k < i :: lines[..i + 1][k] == lines[..i][k];
  }

  // ---------------------------------------------------------------- the read loop

  method OpenEventStream(chunks: seq<string>) returns (signals: seq<Signal>, buffer: string)
    ensures signals == InterpretAll(Read(chunks).frames)
    ensures buffer == Read(chunks).rest
  {
    signals, buffer := [], "";
    ghost var frames: seq<string> := [];
    var i := 0;
    while i < |chunks|
      invariant 0 <= i <= |chunks|
      invariant signals == InterpretAll(frames)
      invariant Read(chunks) == After(frames, ReadFrom(buffer, chunks[i..]))
    {
      ghost var cut := Feed(buffer, chunks[i]);
      ghost var before := frames;
      UnfoldRead(frames, buffer, chunks, i);
      buffer := Normalize(buffer + chunks[i]);
      var boundary := Boundary(buffer);
      while boundary.Some?
        invariant boundary == Boundary(buffer)
        invariant signals == InterpretAll(frames)
        invariant After(frames, Split(buffer)) == After(before, cut)
        decreases |buffer|
      {
        var rawFrame := buffer[..boundary.value];
        AfterAfter(frames, [rawFrame], Split(buffer[boundary.value + 2..]));
        InterpretConcat(frames, [rawFrame]);
        buffer := buffer[boundary.value + 2..];
        frames := frames + [rawFrame];
        var signal := ProcessFrame(rawFrame);
        signals := signals + [signal];
        boundary := Boundary(buffer);
      }
      assert frames + [] == frames;
      i := i + 1;
    }
    assert frames + [] == frames;
  }

  lemma UnfoldRead(frames: seq<string>, buffer: string, chunks: seq<string>, i: nat)
    requires i < |chunks|
    ensures var cut := Feed(buffer, chunks[i]);
            After(frames, ReadFrom(buffer, chunks[i..]))
                == After(frames + cut.frames, ReadFrom(cut.rest, chunks[i + 1..]))
  {
    var cut := Feed(buffer, chunks[i]);
    assert chunks[i..][1..] == chunks[i + 1..];
    AfterAfter(frames, cut.frames, ReadFrom(cut.rest, chunks[i + 1..]));
  }
}
