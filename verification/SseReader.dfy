/**
 The incremental event-stream reader of frontend/src/lib/sse.ts: CRLF normalisation of the
 accumulated buffer, frames cut at the leftmost blank line, and the fields of one frame.
 */
module SseReader {
  import opened Common

  // ---------------------------------------------------------------- the pieces of the loop

  /** `replace(/\r\n/g, "\n")`: one pass from the left. */
  function Normalize(s: string): string {
    if |s| < 2 then s
    else if s[0] == '\r' && s[1] == '\n' then "\n" + Normalize(s[2..])
    else [s[0]] + Normalize(s[1..])
  }

  predicate BlankAt(s: string, k: nat) {
    k + 1 < |s| && s[k] == '\n' && s[k + 1] == '\n'
  }

  /** `indexOf("\n\n")` */
  function Boundary(s: string): (b: Option<nat>)
    ensures b.Some? ==> BlankAt(s, b.value)
  {
    if |s| < 2 then None
    else if BlankAt(s, 0) then Some(0)
    else match Boundary(s[1..])
      case Some(k) => Some(k + 1)
      case None => None
  }

  lemma {:induction false} BoundaryIsLeftmost(s: string, k: nat)
    requires BlankAt(s, k)
    ensures Boundary(s).Some? && Boundary(s).value <= k
  {
    if !BlankAt(s, 0) {
      BoundaryIsLeftmost(s[1..], k - 1);
    }
  }

  /** The raw frames cut so far, and what stays in the buffer. */
  datatype Cut = Cut(frames: seq<string>, rest: string)

  function After(frames: seq<string>, later: Cut): Cut {
    Cut(frames + later.frames, later.rest)
  }

  lemma AfterAfter(a: seq<string>, b: seq<string>, cut: Cut)
    ensures After(a, After(b, cut)) == After(a + b, cut)
  {
    assert a + (b + cut.frames) == (a + b) + cut.frames;
  }

  function Split(s: string): Cut
    decreases |s|
  {
    match Boundary(s)
    case None => Cut([], s)
    case Some(b) => After([s[..b]], Split(s[b + 2..]))
  }

  /** One chunk: appended, normalised with what was left over, and cut. */
  function Feed(buffer: string, chunk: string): Cut {
    Split(Normalize(buffer + chunk))
  }

  function ReadFrom(buffer: string, chunks: seq<string>): Cut
    decreases |chunks|
  {
    if chunks == [] then Cut([], buffer)
    else
      var now := Feed(buffer, chunks[0]);
      After(now.frames, ReadFrom(now.rest, chunks[1..]))
  }

  function Read(chunks: seq<string>): Cut {
    ReadFrom("", chunks)
  }

  function Joined(chunks: seq<string>): string {
    if chunks == [] then "" else chunks[0] + Joined(chunks[1..])
  }

  // ---------------------------------------------------------------- slices of a concatenation

  lemma Associates(a: string, b: string, c: string)
    ensures a + (b + c) == (a + b) + c
    ensures (a + (b + c))[..|a + b|] == a + b
  {
  }

  lemma DropInside(s: string, y: string, n: nat)
    requires n <= |s|
    ensures (s + y)[n..] == s[n..] + y && (s + y)[..n] == s[..n]
  {
  }

  lemma DropTwice(s: string, i: nat, j: nat)
    requires i + j <= |s|
    ensures s[i + j..] == s[i..][j..]
  {
  }

  lemma TakeInTwo(s: string, i: nat, j: nat)
    requires i + j <= |s|
    ensures s[..i + j] == s[..i] + s[i..][..j]
  {
  }

  // ---------------------------------------------------------------- normalisation

  ghost predicate CrCrLfAt(s: string, i: nat) {
    i + 2 < |s| && s[i] == '\r' && s[i + 1] == '\r' && s[i + 2] == '\n'
  }

  ghost predicate HasCrCrLf(s: string) {
    exists i: nat :: CrCrLfAt(s, i)
  }

  ghost predicate CrLfAt(s: string, i: nat) {
    i + 1 < |s| && s[i] == '\r' && s[i + 1] == '\n'
  }

  lemma TailHasNoCrCrLf(s: string, n: nat)
    requires !HasCrCrLf(s) && n <= |s|
    ensures !HasCrCrLf(s[n..])
  {
    forall i: nat | CrCrLfAt(s[n..], i) ensures false {
      assert CrCrLfAt(s, i + n);
    }
  }

  lemma HeadHasNoCrCrLf(s: string, n: nat)
    requires !HasCrCrLf(s) && n <= |s|
    ensures !HasCrCrLf(s[..n])
  {
    forall i: nat | CrCrLfAt(s[..n], i) ensures false {
      assert CrCrLfAt(s, i);
    }
  }

  /** What a normalised string starts with. */
  lemma NormalizedHead(s: string)
    requires s != ""
    ensures Normalize(s) != ""
    ensures Normalize(s)[0] == if CrLfAt(s, 0) then '\n' else s[0]
  {
  }

  lemma {:induction false} NormalizedHasNoCrLf(s: string, i: nat)
    requires !HasCrCrLf(s)
    ensures !CrLfAt(Normalize(s), i)
    decreases |s|
  {
    if |s| >= 2 {
      var n := if CrLfAt(s, 0) then 2 else 1;
      TailHasNoCrCrLf(s, n);
      if i > 0 {
        NormalizedHasNoCrLf(s[n..], i - 1);
      } else if n == 1 {
        NormalizedHead(s[1..]);
        assert !CrCrLfAt(s, 0);
      }
    }
  }

  lemma NormalizeCons(c: char, s: string)
    requires !(c == '\r' && s != "" && s[0] == '\n')
    ensures Normalize([c] + s) == [c] + Normalize(s)
  {
    assert ([c] + s)[1..] == s;
    if s == "" {
      assert [c] + s == [c];
    }
  }

  lemma NormalizeCrLf(s: string)
    ensures Normalize("\r\n" + s) == "\n" + Normalize(s)
  {
    assert ("\r\n" + s)[2..] == s;
  }

  /** Normalising the parts as they come is normalising the whole. */
  lemma {:induction false} NormalizeAgain(p: string, c: string)
    requires !HasCrCrLf(p + c)
    ensures Normalize(p + c) == Normalize(Normalize(p) + c)
    decreases |p|
  {
    if |p| >= 2 {
      if CrLfAt(p, 0) {
        AgainBehindCrLf(p, c);
      } else {
        AgainBehindOther(p, c);
      }
    }
  }

  lemma {:induction false} AgainBehindCrLf(p: string, c: string)
    requires !HasCrCrLf(p + c) && CrLfAt(p, 0)
    ensures Normalize(p + c) == Normalize(Normalize(p) + c)
    decreases |p|, 0
  {
    var q := p[2..];
    Associates("\r\n", q, c);
    assert p == "\r\n" + q;
    DropInside(p, c, 2);
    TailHasNoCrCrLf(p + c, 2);
    NormalizeAgain(q, c);
    NormalizeCrLf(q);
    NormalizeCrLf(q + c);
    Associates("\n", Normalize(q), c);
    NormalizeCons('\n', Normalize(q) + c);
  }

  lemma {:induction false} AgainBehindOther(p: string, c: string)
    requires !HasCrCrLf(p + c) && |p| >= 2 && !CrLfAt(p, 0)
    ensures Normalize(p + c) == Normalize(Normalize(p) + c)
    decreases |p|, 0
  {
    var q := p[1..];
    Associates([p[0]], q, c);
    assert p == [p[0]] + q;
    DropInside(p, c, 1);
    TailHasNoCrCrLf(p + c, 1);
    NormalizeAgain(q, c);
    NormalizedHead(q);
    assert !CrCrLfAt(p + c, 0);
    NormalizeCons(p[0], q);
    NormalizeCons(p[0], q + c);
    Associates([p[0]], Normalize(q), c);
    NormalizeCons(p[0], Normalize(q) + c);
  }

  /** Text without CRLF, not ending in CR, passes through and does not look at what follows. */
  lemma {:induction false} NormalizePast(f: string, x: string)
    requires forall i: nat :: !CrLfAt(f, i)
    requires f == "" || f[|f| - 1] != '\r'
    ensures Normalize(f + x) == f + Normalize(x)
    decreases |f|
  {
    if f == "" {
      assert f + x == x;
      assert f + Normalize(x) == Normalize(x);
    } else {
      var g := f[1..];
      forall i: nat ensures !CrLfAt(g, i) {
        assert !CrLfAt(f, i + 1);
      }
      NormalizePast(g, x);
      assert !CrLfAt(f, 0);
      assert f == [f[0]] + g;
      Associates([f[0]], g, x);
      NormalizeCons(f[0], g + x);
      Associates([f[0]], g, Normalize(x));
    }
  }

  // ---------------------------------------------------------------- cutting

  /** The leftmost boundary does not look at what follows it. */
  lemma {:induction false} BoundaryStays(s: string, y: string)
    requires Boundary(s).Some?
    ensures Boundary(s + y) == Boundary(s)
  {
    if !BlankAt(s, 0) {
      BoundaryStays(s[1..], y);
      assert (s + y)[1..] == s[1..] + y;
    }
  }

  /** Cutting goes on where it stopped: only the leftover meets what follows. */
  lemma {:induction false} SplitGoesOn(s: string, y: string)
    ensures Split(s + y) == After(Split(s).frames, Split(Split(s).rest + y))
    decreases |s|
  {
    match Boundary(s)
    case None =>
      assert After([], Split(s + y)) == Split(s + y);
    case Some(b) =>
      SplitGoesOn(s[b + 2..], y);
      SplitOff(s, b, y);
      AfterAfter([s[..b]], Split(s[b + 2..]).frames, Split(Split(s).rest + y));
  }

  lemma SplitOff(s: string, b: nat, y: string)
    requires Boundary(s) == Some(b)
    ensures Split(s + y) == After([s[..b]], Split(s[b + 2..] + y))
  {
    BoundaryStays(s, y);
    DropInside(s, y, b + 2);
    DropInside(s, y, b);
  }

  /** How many characters have been cut off, blank lines included. */
  function Done(s: string): (n: nat)
    ensures n <= |s|
    decreases |s|
  {
    match Boundary(s)
    case None => 0
    case Some(b) => b + 2 + Done(s[b + 2..])
  }

  lemma {:induction false} RestIsTheEnd(s: string)
    ensures Split(s).rest == s[Done(s)..]
    decreases |s|
  {
    match Boundary(s)
    case None =>
    case Some(b) =>
      RestIsTheEnd(s[b + 2..]);
      DropTwice(s, b + 2, Done(s[b + 2..]));
  }

  lemma {:induction false} DoneEndsBlank(s: string)
    ensures Done(s) > 0 ==> Done(s) >= 2 && s[Done(s) - 2] == s[Done(s) - 1] == '\n'
    decreases |s|
  {
    match Boundary(s)
    case None =>
    case Some(b) =>
      DoneEndsBlank(s[b + 2..]);
  }

  /** The part that is cut off, on its own, gives the frames and leaves nothing. */
  lemma {:induction false} SplitDone(s: string)
    ensures Split(s[..Done(s)]) == Cut(Split(s).frames, "")
    decreases |s|
  {
    match Boundary(s)
    case None =>
      assert s[..Done(s)] == "";
    case Some(b) =>
      var tail := s[b + 2..];
      SplitDone(tail);
      TakeInTwo(s, b + 2, Done(tail));
      FirstFrame(s, b, tail[..Done(tail)]);
  }

  lemma FirstFrame(s: string, b: nat, x: string)
    requires Boundary(s) == Some(b)
    ensures Split(s[..b + 2] + x) == After([s[..b]], Split(x))
  {
    var first := s[..b + 2];
    FirstBoundary(s);
    BoundaryStays(first, x);
    assert (first + x)[b + 2..] == x;
    assert (first + x)[..b] == s[..b];
  }

  lemma {:induction false} FirstBoundary(s: string)
    requires Boundary(s).Some?
    ensures Boundary(s[..Boundary(s).value + 2]) == Boundary(s)
  {
    var b := Boundary(s).value;
    if b > 0 {
      FirstBoundary(s[1..]);
      assert s[..b + 2][1..] == s[1..][..b + 1];
    }
  }

  // ---------------------------------------------------------------- chunks do not matter

  /** Reading c after p has been read: the frames of p, then what c adds. */
  lemma ReadOn(p: string, c: string)
    requires !HasCrCrLf(p + c)
    ensures var before := Split(Normalize(p));
            Split(Normalize(p + c)) == After(before.frames, Feed(before.rest, c))
  {
    DropInside(p, c, |p|);
    HeadHasNoCrCrLf(p + c, |p|);
    forall i: nat ensures !CrLfAt(Normalize(p), i) {
      NormalizedHasNoCrLf(p, i);
    }
    NormalizeAgain(p, c);
    SplitOn(Normalize(p), c);
  }

  lemma SplitOn(n: string, c: string)
    requires forall i: nat :: !CrLfAt(n, i)
    ensures Split(Normalize(n + c)) == After(Split(n).frames, Split(Normalize(Split(n).rest + c)))
  {
    var done, rest := n[..Done(n)], n[Done(n)..];
    DoneEndsBlank(n);
    PastDone(n, Done(n), c);
    RestIsTheEnd(n);
    SplitDone(n);
    SplitGoesOn(done, Normalize(rest + c));
    assert "" + Normalize(rest + c) == Normalize(rest + c);
  }

  lemma PastDone(n: string, d: nat, c: string)
    requires forall i: nat :: !CrLfAt(n, i)
    requires d <= |n| && (d > 0 ==> n[d - 1] == '\n')
    ensures Normalize(n + c) == n[..d] + Normalize(n[d..] + c)
  {
    var done, rest := n[..d], n[d..];
    assert n == done + rest;
    Associates(done, rest, c);
    forall i: nat ensures !CrLfAt(done, i) {
      assert !CrLfAt(n, i);
    }
    NormalizePast(done, rest + c);
  }

  lemma {:induction false} ReadOnAll(p: string, chunks: seq<string>)
    requires !HasCrCrLf(p + Joined(chunks))
    ensures var before := Split(Normalize(p));
            Split(Normalize(p + Joined(chunks))) == After(before.frames, ReadFrom(before.rest, chunks))
    decreases |chunks|
  {
    var before := Split(Normalize(p));
    if chunks == [] {
      assert p + Joined(chunks) == p;
      assert before.frames + [] == before.frames;
    } else {
      var c, others := chunks[0], chunks[1..];
      JoinedStep(p, chunks);
      HeadHasNoCrCrLf(p + Joined(chunks), |p + c|);
      ReadOn(p, c);
      ReadOnAll(p + c, others);
      var now := Feed(before.rest, c);
      AfterAfter(before.frames, now.frames, ReadFrom(now.rest, others));
    }
  }

  lemma JoinedStep(p: string, chunks: seq<string>)
    requires chunks != []
    ensures p + Joined(chunks) == (p + chunks[0]) + Joined(chunks[1..])
    ensures (p + Joined(chunks))[..|p + chunks[0]|] == p + chunks[0]
  {
    Associates(p, chunks[0], Joined(chunks[1..]));
  }

  /** A stream without CR CR LF is read the same however it is chunked. */
  lemma ChunksDoNotMatter(chunks: seq<string>)
    requires !HasCrCrLf(Joined(chunks))
    ensures Read(chunks) == Read([Joined(chunks)]) == Split(Normalize(Joined(chunks)))
  {
    var s := Joined(chunks);
    assert "" + s == s;
    ReadOnAll("", chunks);
    WholeRead(s);
  }

  lemma WholeRead(s: string)
    ensures Read([s]) == Split(Normalize(s))
  {
    var cut := Split(Normalize(s));
    assert "" + s == s && [s][1..] == [];
    assert ReadFrom(cut.rest, []) == Cut([], cut.rest);
    assert cut.frames + [] == cut.frames;
  }

  // ---------------------------------------------------------------- and exactly then

  lemma {:induction false} NormalizeAroundCrLf(x: string, y: string)
    ensures Normalize(x + "\r\n" + y) == Normalize(x) + "\n" + Normalize(y)
    decreases |x|
  {
    var s := x + "\r\n" + y;
    if x == "" {
      assert s == "\r\n" + y && s[2..] == y;
    } else if CrLfAt(x, 0) {
      assert s[2..] == x[2..] + "\r\n" + y;
      NormalizeAroundCrLf(x[2..], y);
    } else {
      assert s[1..] == x[1..] + "\r\n" + y;
      NormalizeAroundCrLf(x[1..], y);
      if |x| == 1 {
        assert x[1..] == "";
      }
    }
  }

  lemma {:induction false} NormalizeShrinks(s: string)
    ensures |Normalize(s)| <= |s|
    ensures s != "" && s[|s| - 1] == '\r' ==> Normalize(s) != "" && Normalize(s)[|Normalize(s)| - 1] == '\r'
    decreases |s|
  {
    if |s| >= 2 {
      NormalizeShrinks(s[if CrLfAt(s, 0) then 2 else 1..]);
    }
  }

  /** Characters a reading accounts for: each frame with its blank line, and the rest. */
  function Weight(cut: Cut): nat
    decreases |cut.frames|
  {
    (if cut.frames == [] then 0 else |cut.frames[0]| + 2 + Weight(Cut(cut.frames[1..], ""))) + |cut.rest|
  }

  lemma {:induction false} WeightAdds(frames: seq<string>, more: Cut)
    ensures Weight(After(frames, more)) == Weight(Cut(frames, "")) + Weight(more)
  {
    if frames == [] {
      assert frames + more.frames == more.frames;
      assert more == Cut(more.frames, more.rest);
    } else {
      WeightAdds(frames[1..], Cut(more.frames, ""));
      WeightAdds(frames[1..], more);
      assert (frames + more.frames)[1..] == frames[1..] + more.frames;
    }
  }

  lemma {:induction false} SplitWeighs(s: string)
    ensures Weight(Split(s)) == |s|
    decreases |s|
  {
    match Boundary(s)
    case None =>
    case Some(b) =>
      var later := Split(s[b + 2..]);
      SplitWeighs(s[b + 2..]);
      WeightAdds([s[..b]], later);
      assert Weight(Cut([s[..b]], "")) == b + 2;
  }

  /** A chunk ending right behind CR CR LF makes the leftover CR LF collapse once more. */
  lemma CrCrLfShows(a: string, b: string)
    ensures Weight(Read([a + "\r\r\n", b])) < Weight(Read([a + "\r\r\n" + b]))
  {
    var q := a + "\r\r\n";
    var n := Normalize(q);
    NormalizedEndsInCrLf(a);
    var rest := Split(n).rest;
    RestKeepsCrLf(n);
    FeedLosesOne(rest, b);
    TwoChunks(q, b);
    SplitWeighs(n);
    WeightAdds(Split(n).frames, Cut([], rest));
    assert Split(n).frames + [] == Split(n).frames;
    WeightAdds(Split(n).frames, Feed(rest, b));
    WholeRead(q + b);
    SplitWeighs(Normalize(q + b));
    WholeWeighs(a, b);
  }

  /** Normalising up to CR CR LF leaves a CR LF. */
  lemma NormalizedEndsInCrLf(a: string)
    ensures var n := Normalize(a + "\r\r\n"); |n| >= 2 && n[|n| - 2..] == "\r\n"
  {
    NormalizeShrinks(a + "\r");
    assert a + "\r\r\n" == (a + "\r") + "\r\n" + "";
    NormalizeAroundCrLf(a + "\r", "");
    var left := Normalize(a + "\r");
    assert Normalize(a + "\r\r\n") == left + "\n";
  }

  lemma WholeWeighs(a: string, b: string)
    ensures |Normalize(a + "\r\r\n" + b)| == |Normalize(a + "\r\r\n")| + |Normalize(b)|
  {
    assert a + "\r\r\n" + b == (a + "\r") + "\r\n" + b;
    assert a + "\r\r\n" == (a + "\r") + "\r\n" + "";
    NormalizeAroundCrLf(a + "\r", b);
    NormalizeAroundCrLf(a + "\r", "");
  }

  lemma FeedLosesOne(rest: string, b: string)
    requires |rest| >= 2 && rest[|rest| - 2..] == "\r\n"
    ensures Weight(Feed(rest, b)) < |rest| + |Normalize(b)|
  {
    var stem := rest[..|rest| - 2];
    assert rest + b == stem + "\r\n" + b;
    NormalizeAroundCrLf(stem, b);
    NormalizeShrinks(stem);
    SplitWeighs(Normalize(rest + b));
  }

  lemma TwoChunks(q: string, b: string)
    ensures var first := Split(Normalize(q));
            Read([q, b]) == After(first.frames, Feed(first.rest, b))
  {
    var first := Split(Normalize(q));
    var more := Feed(first.rest, b);
    assert "" + q == q && [q, b][1..] == [b] && [b][1..] == [];
    assert ReadFrom(more.rest, []) == Cut([], more.rest);
    assert more.frames + [] == more.frames;
    assert ReadFrom(first.rest, [b]) == more;
  }

  lemma RestKeepsCrLf(s: string)
    requires |s| >= 2 && s[|s| - 2..] == "\r\n"
    ensures var rest := Split(s).rest; |rest| >= 2 && rest[|rest| - 2..] == "\r\n"
  {
    assert s[|s| - 2] == '\r';
    DoneEndsBlank(s);
    RestIsTheEnd(s);
  }

  /** The exact condition: every chunking reads like one chunk if and only if the stream has no CR CR LF. */
  lemma ChunkInvariance(s: string)
    ensures (forall chunks | Joined(chunks) == s :: Read(chunks) == Read([s])) <==> !HasCrCrLf(s)
  {
    if HasCrCrLf(s) {
      var i: nat :| CrCrLfAt(s, i);
      var a, b := s[..i], s[i + 3..];
      var chunks := [a + "\r\r\n", b];
      assert chunks[1..] == [b] && [b][1..] == [];
      assert b + "" == b;
      assert Joined([b]) == b;
      assert s == a + "\r\r\n" + b;
      assert Joined(chunks) == s;
      CrCrLfShows(a, b);
    } else {
      forall chunks | Joined(chunks) == s ensures Read(chunks) == Read([s]) {
        ChunksDoNotMatter(chunks);
      }
    }
  }
}
