/**
 The wire form of an event stream (section 9.2.5 of the HTML Living Standard), as the server side
 of backend/routers/scan.py frames it with CRLF or LF line ends, and the reader's answer to it.
 */
module SseRoundTrip {
  import opened Common
  import opened SseReader
  import opened SseFrames

  datatype Line = Comment(text: string) | EventIs(name: string) | DataIs(value: string)

  /** One block: at least one line, all ended the same way, and a blank line. */
  datatype Block = Block(lines: seq<Line>, crlf: bool)

  function Render(line: Line): string {
    match line
    case Comment(text) => ": " + text
    case EventIs(name) => "event: " + name
    case DataIs(value) => "data: " + value
  }

  function Eol(crlf: bool): string {
    if crlf then "\r\n" else "\n"
  }

  function Rendered(lines: seq<Line>): seq<string> {
    seq(|lines|, i requires 0 <= i < |lines| => Render(lines[i]))
  }

  function Body(texts: seq<string>, crlf: bool): string {
    if texts == [] then "" else texts[0] + Eol(crlf) + Body(texts[1..], crlf)
  }

  function Encode(block: Block): string {
    Body(Rendered(block.lines), block.crlf) + Eol(block.crlf)
  }

  function EncodeAll(blocks: seq<Block>): string {
    if blocks == [] then "" else Encode(blocks[0]) + EncodeAll(blocks[1..])
  }

  // ---------------------------------------------------------------- what it should mean

  predicate OneLine(s: string) {
    forall i | 0 <= i < |s| :: s[i] != '\r' && s[i] != '\n'
  }

  /** Values are newline-free; event types and data also carry no white space at either end. */
  predicate Clean(line: Line) {
    match line
    case Comment(text) => OneLine(text)
    case EventIs(name) => OneLine(name) && Trim(name) == name
    case DataIs(value) => OneLine(value) && Trim(value) == value
  }

  predicate CleanBlock(block: Block) {
    block.lines != [] && forall i | 0 <= i < |block.lines| :: Clean(block.lines[i])
  }

  predicate CleanBlocks(blocks: seq<Block>) {
    forall i | 0 <= i < |blocks| :: CleanBlock(blocks[i])
  }

  function NameIn(lines: seq<Line>): string {
    if lines == [] then "message"
    else
      var line := lines[|lines| - 1];
      if line.EventIs? then line.name else NameIn(lines[..|lines| - 1])
  }

  function ValuesIn(lines: seq<Line>): seq<string> {
    if lines == [] then []
    else
      var line := lines[|lines| - 1];
      ValuesIn(lines[..|lines| - 1]) + if line.DataIs? then [line.value] else []
  }

  function Meaning(block: Block): Signal {
    if forall i | 0 <= i < |block.lines| :: block.lines[i].Comment? then Heartbeat
    else Frame(NameIn(block.lines), Join(ValuesIn(block.lines)))
  }

  function Meanings(blocks: seq<Block>): seq<Signal> {
    seq(|blocks|, i requires 0 <= i < |blocks| => Meaning(blocks[i]))
  }

  /** The raw frame the reader should cut out for a block. */
  function Raw(block: Block): string {
    Join(Rendered(block.lines))
  }

  function Raws(blocks: seq<Block>): seq<string> {
    seq(|blocks|, i requires 0 <= i < |blocks| => Raw(blocks[i]))
  }

  predicate Text(s: string) {
    OneLine(s) && s != ""
  }

  predicate Texts(texts: seq<string>) {
    forall i | 0 <= i < |texts| :: Text(texts[i])
  }

  lemma RenderedTexts(block: Block)
    requires CleanBlock(block)
    ensures Texts(Rendered(block.lines)) && Rendered(block.lines) != []
  {
    forall i | 0 <= i < |block.lines| ensures Text(Render(block.lines[i])) {
      assert Clean(block.lines[i]);
    }
  }

  // ---------------------------------------------------------------- no CR stands alone

  ghost predicate LoneCr(s: string, i: nat) {
    i < |s| && s[i] == '\r' && (i + 1 == |s| || s[i + 1] != '\n')
  }

  ghost predicate Paired(s: string) {
    forall i: nat :: !LoneCr(s, i)
  }

  lemma PairedConcat(a: string, b: string)
    requires Paired(a) && Paired(b)
    ensures Paired(a + b)
  {
    forall i: nat ensures !LoneCr(a + b, i) {
      if i < |a| {
        assert !LoneCr(a, i);
      } else {
        assert !LoneCr(b, i - |a|);
      }
    }
  }

  lemma OneLinePaired(s: string)
    requires OneLine(s)
    ensures Paired(s)
  {
    forall i: nat ensures !LoneCr(s, i) {
    }
  }

  lemma EolPaired(crlf: bool)
    ensures Paired(Eol(crlf))
  {
    forall i: nat ensures !LoneCr(Eol(crlf), i) {
    }
  }

  lemma {:induction false} BodyPaired(texts: seq<string>, crlf: bool)
    requires Texts(texts)
    ensures Paired(Body(texts, crlf))
  {
    if texts == [] {
      OneLinePaired("");
    } else {
      assert Text(texts[0]);
      OneLinePaired(texts[0]);
      EolPaired(crlf);
      PairedConcat(texts[0], Eol(crlf));
      BodyPaired(texts[1..], crlf);
      PairedConcat(texts[0] + Eol(crlf), Body(texts[1..], crlf));
    }
  }

  lemma {:induction false} EncodedPaired(blocks: seq<Block>)
    requires CleanBlocks(blocks)
    ensures Paired(EncodeAll(blocks))
  {
    if blocks == [] {
      OneLinePaired("");
    } else {
      var block := blocks[0];
      assert CleanBlock(block);
      RenderedTexts(block);
      BodyPaired(Rendered(block.lines), block.crlf);
      EolPaired(block.crlf);
      PairedConcat(Body(Rendered(block.lines), block.crlf), Eol(block.crlf));
      EncodedPaired(blocks[1..]);
      PairedConcat(Encode(block), EncodeAll(blocks[1..]));
    }
  }

  lemma PairedHasNoCrCrLf(s: string)
    requires Paired(s)
    ensures !HasCrCrLf(s)
  {
    forall i: nat ensures !CrCrLfAt(s, i) {
      assert !LoneCr(s, i);
    }
  }

  // ---------------------------------------------------------------- normalising

  lemma NormalizeLine(line: string, crlf: bool, y: string)
    requires OneLine(line)
    ensures Normalize(line + Eol(crlf) + y) == line + "\n" + Normalize(y)
  {
    forall i: nat ensures !CrLfAt(line, i) {
    }
    NormalizePast(line, Eol(crlf) + y);
    Associates(line, Eol(crlf), y);
    if crlf {
      NormalizeCrLf(y);
    } else {
      NormalizeCons('\n', y);
    }
    Associates(line, "\n", Normalize(y));
  }

  /** Whatever the line ends were, the reader sees the lines joined by LF, LF, and what follows. */
  lemma {:induction false} NormalizeBody(texts: seq<string>, crlf: bool, y: string)
    requires texts != [] && Texts(texts)
    ensures Normalize(Body(texts, crlf) + y) == Join(texts) + ("\n" + Normalize(y))
  {
    var line, others := texts[0], texts[1..];
    assert Text(line);
    NormalizeLine(line, crlf, Body(others, crlf) + y);
    Associates(line + Eol(crlf), Body(others, crlf), y);
    if others == [] {
      assert Body(others, crlf) + y == y;
      Associates(line, "\n", Normalize(y));
    } else {
      NormalizeBody(others, crlf, y);
      Associates(line + "\n", Join(others), "\n" + Normalize(y));
    }
  }

  lemma NormalizeEol(crlf: bool, y: string)
    ensures Normalize(Eol(crlf) + y) == "\n" + Normalize(y)
  {
    assert "" + Eol(crlf) == Eol(crlf) && "" + "\n" == "\n";
    NormalizeLine("", crlf, y);
  }

  lemma NormalizeEncoded(block: Block, y: string)
    requires CleanBlock(block)
    ensures Normalize(Encode(block) + y) == Raw(block) + ("\n\n" + Normalize(y))
  {
    var crlf, texts := block.crlf, Rendered(block.lines);
    RenderedTexts(block);
    Associates(Body(texts, crlf), Eol(crlf), y);
    NormalizeBody(texts, crlf, Eol(crlf) + y);
    NormalizeEol(crlf, y);
    TwoBreaks(Normalize(y));
  }

  lemma TwoBreaks(z: string)
    ensures "\n" + ("\n" + z) == "\n\n" + z
  {
  }

  // ---------------------------------------------------------------- cutting

  function Shifted(n: nat, b: Option<nat>): Option<nat> {
    match b
    case Some(k) => Some(n + k)
    case None => None
  }

  lemma {:induction false} BoundaryPast(line: string, y: string)
    requires OneLine(line)
    ensures Boundary(line + y) == Shifted(|line|, Boundary(y))
  {
    if line == "" {
      assert line + y == y;
    } else {
      BoundaryPast(line[1..], y);
      assert (line + y)[1..] == line[1..] + y;
      assert !BlankAt(line + y, 0);
    }
  }

  lemma {:induction false} BoundaryOfJoin(texts: seq<string>, z: string)
    requires texts != [] && Texts(texts)
    ensures Boundary(Join(texts) + ("\n\n" + z)) == Some(|Join(texts)|)
  {
    var line, others := texts[0], texts[1..];
    assert Text(line);
    if others == [] {
      BoundaryAtOnce(line, z);
    } else {
      BoundaryOfJoin(others, z);
      JoinStarts(others);
      JoinAhead(line, Join(others), "\n\n" + z);
      BoundaryPastLine(line, Join(others) + ("\n\n" + z), "\n" + (Join(others) + ("\n\n" + z)));
    }
  }

  lemma BoundaryAtOnce(line: string, z: string)
    requires OneLine(line)
    ensures Boundary(line + ("\n\n" + z)) == Some(|line|)
  {
    assert BlankAt("\n\n" + z, 0);
    BoundaryPast(line, "\n\n" + z);
  }

  lemma JoinAhead(line: string, others: string, z: string)
    ensures (line + "\n" + others) + z == line + ("\n" + (others + z))
  {
    Associates(line + "\n", others, z);
    Associates(line, "\n", others + z);
  }

  lemma BoundaryPastLine(line: string, y: string, broken: string)
    requires OneLine(line) && y != "" && y[0] != '\n' && broken == "\n" + y
    ensures Boundary(line + broken) == Shifted(|line| + 1, Boundary(y))
  {
    BoundaryPast(line, broken);
    assert broken[0] == '\n' && broken[1..] == y;
    BoundaryPastBreak(y, broken);
  }

  lemma BoundaryPastBreak(y: string, broken: string)
    requires y != "" && y[0] != '\n' && |broken| == |y| + 1 && broken[1..] == y
    ensures Boundary(broken) == Shifted(1, Boundary(y))
  {
    assert broken[1] == y[0];
    assert !BlankAt(broken, 0);
  }

  lemma JoinStarts(texts: seq<string>)
    requires texts != [] && Texts(texts)
    ensures Join(texts) != "" && Join(texts)[0] != '\n'
  {
    assert Text(texts[0]);
  }

  lemma SplitEncoded(block: Block, y: string)
    requires CleanBlock(block)
    ensures Split(Normalize(Encode(block) + y)) == After([Raw(block)], Split(Normalize(y)))
  {
    NormalizeEncoded(block, y);
    RenderedTexts(block);
    BoundaryOfJoin(Rendered(block.lines), Normalize(y));
    SplitAt(Raw(block), Normalize(y));
  }

  lemma SplitAt(raw: string, z: string)
    requires Boundary(raw + ("\n\n" + z)) == Some(|raw|)
    ensures Split(raw + ("\n\n" + z)) == After([raw], Split(z))
  {
    var s := raw + ("\n\n" + z);
    assert s[..|raw|] == raw;
    assert s[|raw| + 2..] == z;
  }

  lemma {:induction false} SplitAll(blocks: seq<Block>)
    requires CleanBlocks(blocks)
    ensures Split(Normalize(EncodeAll(blocks))) == Cut(Raws(blocks), "")
  {
    if blocks != [] {
      assert CleanBlock(blocks[0]);
      SplitEncoded(blocks[0], EncodeAll(blocks[1..]));
      SplitAll(blocks[1..]);
      RawsStep(blocks);
    }
  }

  lemma RawsStep(blocks: seq<Block>)
    requires blocks != []
    ensures [Raw(blocks[0])] + Raws(blocks[1..]) == Raws(blocks)
  {
  }

  // ---------------------------------------------------------------- one frame's fields

  lemma {:induction false} LinesPast(line: string, y: string)
    requires OneLine(line)
    ensures Lines(line) == [line]
    ensures Lines(line + "\n" + y) == [line] + Lines(y)
  {
    if line == "" {
      assert line + "\n" + y == "\n" + y && ("\n" + y)[1..] == y;
    } else {
      LinesPast(line[1..], y);
      assert (line + "\n" + y)[1..] == line[1..] + "\n" + y;
      assert [line[0]] + line[1..] == line;
    }
  }

  lemma {:induction false} LinesOfJoin(texts: seq<string>)
    requires texts != [] && Texts(texts)
    ensures Lines(Join(texts)) == texts
  {
    assert Text(texts[0]);
    if |texts| == 1 {
      LinesPast(texts[0], "");
    } else {
      LinesPast(texts[0], Join(texts[1..]));
      LinesOfJoin(texts[1..]);
    }
  }

  /** The prefix of a rendered line says which kind of line it is, and the rest trims to its value. */
  lemma RenderedField(line: Line)
    requires Clean(line)
    ensures var s := Render(line);
            && (COMMENT <= s <==> line.Comment?)
            && (EVENT <= s <==> line.EventIs?)
            && (DATA <= s <==> line.DataIs?)
            && (line.EventIs? ==> Trim(s[|EVENT|..]) == line.name)
            && (line.DataIs? ==> Trim(s[|DATA|..]) == line.value)
  {
    var s := Render(line);
    match line
    case Comment(_) =>
      assert s[0] == ':';
    case EventIs(name) =>
      assert s[|EVENT|..] == " " + name;
      TrimBlank(name);
      assert s[0] == 'e';
    case DataIs(value) =>
      assert s[|DATA|..] == " " + value;
      TrimBlank(value);
      assert s[0] == 'd';
  }

  lemma TrimBlank(s: string)
    ensures Trim(" " + s) == Trim(s)
  {
    assert (" " + s)[1..] == s;
  }

  lemma {:induction false} FieldsOfRendered(lines: seq<Line>)
    requires forall i | 0 <= i < |lines| :: Clean(lines[i])
    ensures EventOf(Rendered(lines)) == NameIn(lines)
    ensures DataOf(Rendered(lines)) == ValuesIn(lines)
  {
    if lines != [] {
      var n := |lines| - 1;
      RenderedField(lines[n]);
      FieldsOfRendered(lines[..n]);
      assert Rendered(lines)[..n] == Rendered(lines[..n]);
    }
  }

  lemma InterpretRaw(block: Block)
    requires CleanBlock(block)
    ensures Interpret(Raw(block)) == Meaning(block)
  {
    var lines := block.lines;
    RenderedTexts(block);
    LinesOfJoin(Rendered(lines));
    FieldsOfRendered(lines);
    forall i | 0 <= i < |lines| ensures COMMENT <= Rendered(lines)[i] <==> lines[i].Comment? {
      RenderedField(lines[i]);
    }
  }

  // ---------------------------------------------------------------- round trip

  /** However an encoded stream is chunked, the reader reports its blocks, in order, and keeps nothing back. */
  lemma RoundTrip(blocks: seq<Block>, chunks: seq<string>)
    requires CleanBlocks(blocks) && Joined(chunks) == EncodeAll(blocks)
    ensures InterpretAll(Read(chunks).frames) == Meanings(blocks)
    ensures Read(chunks).rest == ""
  {
    EncodedPaired(blocks);
    PairedHasNoCrCrLf(EncodeAll(blocks));
    ChunksDoNotMatter(chunks);
    SplitAll(blocks);
    forall i | 0 <= i < |blocks| ensures Interpret(Raws(blocks)[i]) == Meanings(blocks)[i] {
      assert CleanBlock(blocks[i]);
      InterpretRaw(blocks[i]);
    }
    assert InterpretAll(Raws(blocks)) == Meanings(blocks);
  }
}
