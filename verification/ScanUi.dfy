/**
 The last stages of the scan path: the stream route of backend/routers/scan.py, the reducer of
 frontend/src/hooks/useScanStream.ts, and the whole path from the task pool to what the user sees.
 */
module ScanUi {
  import opened Common
  import opened ScanModel
  import opened HostScan
  import opened ScanJobs
  import opened SseReader
  import opened SseFrames
  import opened SseRoundTrip

  // ---------------------------------------------------------------- the stream route

  /** JSON on both ends: what `json.dumps` writes, and what `JSON.parse` and the schema for an event name read. */
  datatype Codec = Codec(encode: Event -> string, decode: (string, string) -> Option<Event>)

  function NameOf(e: Event): string {
    match e
    case Progress(_, _, _) => "progress"
    case Complete(_, _, _) => "complete"
    case Error(_) => "error"
  }

  /** Decoding undoes encoding, and encoded text is one line without white space at its ends. */
  ghost predicate Lawful(codec: Codec) {
    forall e: Event ::
      var text := codec.encode(e);
      codec.decode(NameOf(e), text) == Some(e) && OneLine(text) && Trim(text) == text
  }

  /** One round of the generator's loop: the client is gone, the wait timed out, or an event came. */
  datatype Wait = Disconnected | TimedOut | Got(event: Event)

  predicate Yielding(waits: seq<Wait>) {
    forall i | 0 <= i < |waits| :: !waits[i].Disconnected?
  }

  function BlockFor(codec: Codec, wait: Wait): Block
    requires !wait.Disconnected?
  {
    match wait
    case TimedOut => Block([Comment("keep-alive")], true)
    case Got(e) => Block([EventIs(NameOf(e)), DataIs(codec.encode(e))], true)
  }

  function BlocksFor(codec: Codec, waits: seq<Wait>): seq<Block>
    requires Yielding(waits)
  {
    seq(|waits|, i requires 0 <= i < |waits| => BlockFor(codec, waits[i]))
  }

  /** The rounds that yield something: up to a disconnect, or up to and including a terminal event. */
  function Served(waits: seq<Wait>): (served: seq<Wait>)
    ensures Yielding(served)
  {
    if waits == [] || waits[0].Disconnected? then []
    else if waits[0].Got? && Terminal(waits[0].event) then [waits[0]]
    else [waits[0]] + Served(waits[1..])
  }

  predicate Stops(wait: Wait) {
    wait.Disconnected? || (wait.Got? && (wait.event.Complete? || wait.event.Error?))
  }

  /** The generator serves the rounds up to the first that stops it, and of those that do only an event itself. */
  lemma {:induction false} ServedUpTo(waits: seq<Wait>)
    ensures var n := |Served(waits)|;
            && n <= |waits| && Served(waits) == waits[..n]
            && (forall i | 0 <= i < n - 1 :: !Stops(waits[i]))
            && (n < |waits| ==> waits[n].Disconnected? || (n > 0 && Stops(waits[n - 1])))
  {
    if waits != [] && Served(waits) != [] && Served(waits) != [waits[0]] {
      ServedUpTo(waits[1..]);
      assert waits == [waits[0]] + waits[1..];
    } else if waits != [] && !waits[0].Disconnected? && !Stops(waits[0]) {
      ServedUpTo(waits[1..]);
    }
  }

  method StreamScanProgress(codec: Codec, waits: seq<Wait>) returns (blocks: seq<Block>)
    ensures blocks == BlocksFor(codec, Served(waits))
  {
    blocks := [];
    ghost var served: seq<Wait> := [];
    var i := 0;
    while i < |waits|
      invariant 0 <= i <= |waits|
      invariant Yielding(served)
      invariant blocks == BlocksFor(codec, served)
      invariant Served(waits) == served + Served(waits[i..])
    {
      var wait := waits[i];
      assert waits[i..][1..] == waits[i + 1..];
      if wait.Disconnected? {
        assert served + [] == served;
        return;
      }
      i := i + 1;
      blocks := blocks + [BlockFor(codec, wait)];
      assert Served(waits)
          == (served + [wait]) + (if wait.Got? && Terminal(wait.event) then [] else Served(waits[i..]));
      served := served + [wait];
      if wait.Got? && Terminal(wait.event) {
        assert served + [] == served;
        return;
      }
    }
    assert served + [] == served;
  }

  function EventsIn(waits: seq<Wait>): seq<Event> {
    if waits == [] then []
    else (if waits[0].Got? then [waits[0].event] else []) + EventsIn(waits[1..])
  }

  // ---------------------------------------------------------------- the reducer

  datatype Status = Idle | Starting | Scanning | Finished | Errored

  datatype ScanState = ScanState(
    progress: int,
    hostsScanned: nat,
    totalHosts: nat,
    hostsFound: Option<nat>,
    currentHost: string,
    status: Status,
    errorMessage: Option<string>)

  const SCAN_STARTED := ScanState(0, 0, 0, None, "", Scanning, None)

  /** `Math.round`: to the nearest integer, halves up. */
  function Round(x: real): int {
    (x + 0.5).Floor
  }

  function Percent(scanned: nat, found: nat): int {
    if found > 0 then Round(scanned as real / found as real * 100.0) else 0
  }

  function OnEvent(s: ScanState, e: Event): ScanState {
    match e
    case Progress(found, scanned, host) =>
      s.(status := Scanning, hostsScanned := scanned, totalHosts := found, currentHost := host,
          progress := Percent(scanned, found))
    case Complete(total, online, _) =>
      s.(status := Finished, progress := 100, hostsFound := Some(online), totalHosts := total)
    case Error(message) =>
      s.(status := Errored, errorMessage := Some(message))
  }

  const CONNECTION_LOST := "connection to the scan progress lost"

  /** A frame that does not parse throws out of the read loop: an error is shown and nothing more is read. */
  datatype Ui = Showing(state: ScanState) | Broken(state: ScanState)

  function OnSignal(codec: Codec, ui: Ui, signal: Signal): Ui {
    if ui.Broken? || signal.Heartbeat? then ui
    else if signal.event !in {"progress", "complete", "error"} then ui
    else
      match codec.decode(signal.event, signal.data)
      case Some(e) => Showing(OnEvent(ui.state, e))
      case None => Broken(ui.state.(status := Errored, errorMessage := Some(CONNECTION_LOST)))
  }

  function UiAfter(codec: Codec, ui: Ui, signals: seq<Signal>): Ui {
    if signals == [] then ui
    else OnSignal(codec, UiAfter(codec, ui, signals[..|signals| - 1]), signals[|signals| - 1])
  }

  /** A frame of one of the three names that does not parse shows an error, and nothing after it is read. */
  lemma {:induction false} MalformedFrame(codec: Codec, state: ScanState, frame: Signal, later: seq<Signal>)
    requires frame.Frame? && frame.event in {"progress", "complete", "error"}
    requires codec.decode(frame.event, frame.data).None?
    ensures var ui := UiAfter(codec, Showing(state), [frame] + later);
            && ui.Broken? && ui.state.status == Errored && ui.state.errorMessage == Some(CONNECTION_LOST)
            && ui.state.(status := state.status, errorMessage := state.errorMessage) == state
  {
    if later == [] {
      assert [frame] + later == [frame] && [frame][..0] == [];
      assert UiAfter(codec, Showing(state), []) == Showing(state);
    } else {
      var n := |later| - 1;
      MalformedFrame(codec, state, frame, later[..n]);
      assert ([frame] + later)[..|[frame] + later| - 1] == [frame] + later[..n];
    }
  }

  function StateAfter(s: ScanState, events: seq<Event>): ScanState {
    if events == [] then s
    else OnEvent(StateAfter(s, events[..|events| - 1]), events[|events| - 1])
  }

  // ---------------------------------------------------------------- progress

  lemma PercentInRange(scanned: nat, found: nat)
    requires scanned <= found
    ensures 0 <= Percent(scanned, found) <= 100
  {
    if found > 0 {
      assert scanned as real / found as real <= 1.0;
    }
  }

  lemma PercentRises(a: nat, b: nat, found: nat)
    requires a <= b
    ensures Percent(a, found) <= Percent(b, found)
  {
    if found > 0 {
      QuotientRises(a as real, b as real, found as real);
    }
  }

  /** What is shown is the percentage, to the nearest integer, halves up. */
  lemma PercentIsNearest(scanned: nat, found: nat)
    ensures found == 0 ==> Percent(scanned, found) == 0
    ensures found > 0 ==>
              var p := Percent(scanned, found);
              2 * p * found <= 200 * scanned + found < 2 * (p + 1) * found
  {
    if found > 0 {
      var p := Percent(scanned, found);
      NearestScaled(scanned as real / found as real, scanned as real, found as real, p as real);
      assert 2.0 * p as real * found as real == (2 * p * found) as real;
      assert 2.0 * (p as real + 1.0) * found as real == (2 * (p + 1) * found) as real;
    }
  }

  lemma NearestScaled(q: real, a: real, b: real, p: real)
    requires b > 0.0 && q == a / b && p <= q * 100.0 + 0.5 < p + 1.0
    ensures 2.0 * p * b <= 200.0 * a + b < 2.0 * (p + 1.0) * b
  {
    assert q * b == a;
    assert (q * 100.0 + 0.5) * b == 100.0 * a + 0.5 * b;
    ScaledUp(p, q * 100.0 + 0.5, b);
    ScaledUp(p + 1.0, q * 100.0 + 0.5, b);
  }

  lemma ScaledUp(x: real, y: real, b: real)
    requires b > 0.0
    ensures x <= y <==> x * b <= y * b
  {
    assert (y - x) * b == y * b - x * b;
    assert y - x >= 0.0 <==> (y - x) * b >= 0.0;
  }

  lemma QuotientRises(a: real, b: real, c: real)
    requires a <= b && c > 0.0
    ensures a / c <= b / c
  {
  }

  /** While events only report progress, the interface shows the last of them. */
  lemma {:induction false} ProgressShown(events: seq<Event>, total: nat)
    requires Rising(events, total, total)
    ensures var s := StateAfter(SCAN_STARTED, events);
            if events == [] then s == SCAN_STARTED
            else
              var last := events[|events| - 1];
              s == ScanState(Percent(last.hostsScanned, total), last.hostsScanned, total, None, last.currentHost,
                  Scanning, None)
  {
    if events != [] {
      RisingPrefix(events, total, |events| - 1);
      ProgressShown(events[..|events| - 1], total);
      assert HostScan.Within(events[|events| - 1], total, total);
    }
  }

  /** One view is no further than another: neither the bar nor the host count goes back or out of range. */
  predicate NoFurther(a: ScanState, b: ScanState, total: nat) {
    0 <= a.progress <= b.progress <= 100 && a.hostsScanned <= b.hostsScanned <= total
  }

  /** Over one scan's events the bar stays within 0..100, the count within the subnet, and neither goes back. */
  lemma ProgressNeverFalls(events: seq<Event>, total: nat, i: nat, j: nat)
    requires ScanEvents(events, total) && i <= j <= |events|
    ensures NoFurther(StateAfter(SCAN_STARTED, events[..i]), StateAfter(SCAN_STARTED, events[..j]), total)
  {
    var last := |events| - 1;
    if j == |events| {
      assert events[..j] == events && events[..last] + [events[last]] == events;
      ProgressUpTo(events, total, if i <= last then i else last, last);
    } else {
      ProgressUpTo(events, total, i, j);
    }
  }

  lemma ProgressUpTo(events: seq<Event>, total: nat, i: nat, j: nat)
    requires ScanEvents(events, total) && i <= j < |events|
    ensures NoFurther(StateAfter(SCAN_STARTED, events[..i]), StateAfter(SCAN_STARTED, events[..j]), total)
  {
    var all := events[..|events| - 1];
    RisingPrefix(all, total, i);
    RisingPrefix(all, total, j);
    assert all[..i] == events[..i] && all[..j] == events[..j];
    ProgressShown(events[..i], total);
    ProgressShown(events[..j], total);
    if j > 0 {
      assert HostScan.Within(all[j - 1], total, total);
      PercentInRange(all[j - 1].hostsScanned, total);
    }
    if 0 < i < j {
      assert HostScan.Within(all[i - 1], total, total);
      PercentInRange(all[i - 1].hostsScanned, total);
      assert Before(all[i - 1], all[j - 1]);
      PercentRises(all[i - 1].hostsScanned, all[j - 1].hostsScanned, total);
    }
  }

  lemma RisingPrefix(events: seq<Event>, total: nat, n: nat)
    requires Rising(events, total, total) && n <= |events|
    ensures Rising(events[..n], total, total)
  {
  }

  // ---------------------------------------------------------------- signals back to events

  /** What reaches the handlers for one round of the generator. */
  function SignalFor(codec: Codec, wait: Wait): Signal
    requires !wait.Disconnected?
  {
    match wait
    case TimedOut => Heartbeat
    case Got(e) => Frame(NameOf(e), codec.encode(e))
  }

  lemma EventBlock(name: string, text: string)
    ensures Meaning(Block([EventIs(name), DataIs(text)], true)) == Frame(name, text)
  {
    var lines := [EventIs(name), DataIs(text)];
    assert lines[..1] == [EventIs(name)];
    assert [EventIs(name)][..0] == [];
    assert NameIn([EventIs(name)]) == name && ValuesIn([EventIs(name)]) == [];
    assert lines[0] == EventIs(name);
  }

  lemma LettersAreClean(s: string)
    requires s != "" && forall i | 0 <= i < |s| :: 'a' <= s[i] <= 'z'
    ensures OneLine(s) && Trim(s) == s
  {
    assert !IsSpace(s[0]) && !IsSpace(s[|s| - 1]);
    assert TrimStart(s) == s && TrimEnd(s) == s;
  }

  lemma MeaningOfWait(codec: Codec, wait: Wait)
    requires Lawful(codec) && !wait.Disconnected?
    ensures CleanBlock(BlockFor(codec, wait))
    ensures Meaning(BlockFor(codec, wait)) == SignalFor(codec, wait)
  {
    if wait.Got? {
      EventIsClean(codec, wait.event);
      EventBlock(NameOf(wait.event), codec.encode(wait.event));
    }
  }

  lemma EventIsClean(codec: Codec, e: Event)
    requires Lawful(codec)
    ensures CleanBlock(Block([EventIs(NameOf(e)), DataIs(codec.encode(e))], true))
  {
    LettersAreClean(NameOf(e));
    var text := codec.encode(e);
    assert codec.decode(NameOf(e), text) == Some(e);
    CleanPair(NameOf(e), text);
  }

  lemma CleanPair(name: string, text: string)
    requires OneLine(name) && Trim(name) == name && OneLine(text) && Trim(text) == text
    ensures CleanBlock(Block([EventIs(name), DataIs(text)], true))
  {
    assert Clean(EventIs(name)) && Clean(DataIs(text));
  }

  lemma MeaningsOfWaits(codec: Codec, waits: seq<Wait>)
    requires Lawful(codec) && Yielding(waits)
    ensures CleanBlocks(BlocksFor(codec, waits))
    ensures Meanings(BlocksFor(codec, waits)) == SignalsFor(codec, waits)
  {
    forall i | 0 <= i < |waits|
      ensures CleanBlock(BlockFor(codec, waits[i]))
      ensures Meaning(BlockFor(codec, waits[i])) == SignalFor(codec, waits[i])
    {
      MeaningOfWait(codec, waits[i]);
    }
  }

  function SignalsFor(codec: Codec, waits: seq<Wait>): seq<Signal>
    requires Yielding(waits)
  {
    seq(|waits|, i requires 0 <= i < |waits| => SignalFor(codec, waits[i]))
  }

  lemma OneRound(codec: Codec, s: ScanState, wait: Wait)
    requires Lawful(codec) && !wait.Disconnected?
    ensures OnSignal(codec, Showing(s), SignalFor(codec, wait))
            == Showing(if wait.Got? then OnEvent(s, wait.event) else s)
  {
  }

  /** The interface follows the events; heartbeats change nothing. */
  lemma {:induction false} UiFollowsEvents(codec: Codec, waits: seq<Wait>)
    requires Lawful(codec) && Yielding(waits)
    ensures UiAfter(codec, Showing(SCAN_STARTED), SignalsFor(codec, waits))
            == Showing(StateAfter(SCAN_STARTED, EventsIn(waits)))
  {
    if waits != [] {
      var n := |waits| - 1;
      var init, last := waits[..n], waits[n];
      UiFollowsEvents(codec, init);
      assert SignalsFor(codec, waits)[..n] == SignalsFor(codec, init);
      OneRound(codec, StateAfter(SCAN_STARTED, EventsIn(init)), last);
      assert init + [last] == waits;
      EventsInSnoc(init, last);
      StateSnoc(SCAN_STARTED, EventsIn(init), last);
    }
  }

  lemma StateSnoc(s: ScanState, events: seq<Event>, wait: Wait)
    ensures StateAfter(s, events + if wait.Got? then [wait.event] else [])
            == if wait.Got? then OnEvent(StateAfter(s, events), wait.event) else StateAfter(s, events)
  {
    if wait.Got? {
      assert (events + [wait.event])[..|events|] == events;
    } else {
      assert events + [] == events;
    }
  }

  lemma {:induction false} EventsInSnoc(waits: seq<Wait>, wait: Wait)
    ensures EventsIn(waits + [wait]) == EventsIn(waits) + if wait.Got? then [wait.event] else []
  {
    if waits == [] {
      assert [] + [wait] == [wait] && [wait][1..] == [];
    } else {
      EventsInSnoc(waits[1..], wait);
      assert (waits + [wait])[1..] == waits[1..] + [wait];
    }
  }

  lemma {:induction false} EventsInPrefix(waits: seq<Wait>, n: nat)
    requires n <= |waits|
    ensures EventsIn(waits[..n]) <= EventsIn(waits)
  {
    if n > 0 {
      EventsInPrefix(waits[1..], n - 1);
      assert waits[..n][1..] == waits[1..][..n - 1];
    }
  }

  // ---------------------------------------------------------------- end to end

  /** What the interface shows when these chunks have arrived. */
  function Shown(codec: Codec, chunks: seq<string>): Ui {
    UiAfter(codec, Showing(SCAN_STARTED), InterpretAll(Read(chunks).frames))
  }

  lemma {:induction false} FramesGrow(buffer: string, chunks: seq<string>, k: nat)
    requires k <= |chunks|
    ensures ReadFrom(buffer, chunks[..k]).frames <= ReadFrom(buffer, chunks).frames
    decreases k
  {
    if k > 0 {
      var now := Feed(buffer, chunks[0]);
      FramesGrow(now.rest, chunks[1..], k - 1);
      assert chunks[..k][1..] == chunks[1..][..k - 1];
    }
  }

  /** After any number of chunks the interface has followed some prefix of the generator's rounds. */
  lemma ShownIsAPrefix(codec: Codec, waits: seq<Wait>, chunks: seq<string>, k: nat) returns (n: nat)
    requires Lawful(codec) && Yielding(waits)
    requires Joined(chunks) == EncodeAll(BlocksFor(codec, waits)) && k <= |chunks|
    ensures n == |Read(chunks[..k]).frames| <= |Read(chunks).frames| == |waits|
    ensures Shown(codec, chunks[..k]) == Showing(StateAfter(SCAN_STARTED, EventsIn(waits[..n])))
  {
    var blocks := BlocksFor(codec, waits);
    MeaningsOfWaits(codec, waits);
    RoundTrip(blocks, chunks);
    FramesGrow("", chunks, k);
    n := |Read(chunks[..k]).frames|;
    var frames := Read(chunks).frames;
    assert InterpretAll(frames) == SignalsFor(codec, waits);
    assert |InterpretAll(frames)| == |frames|;
    assert Read(chunks[..k]).frames == frames[..n];
    InterpretPrefix(frames, n);
    assert SignalsFor(codec, waits)[..n] == SignalsFor(codec, waits[..n]);
    UiFollowsEvents(codec, waits[..n]);
  }

  lemma InterpretPrefix(frames: seq<string>, n: nat)
    requires n <= |frames|
    ensures InterpretAll(frames[..n]) == InterpretAll(frames)[..n]
  {
  }

  /**
   For any schedule of the host tasks, any heartbeats and any chunking: what is shown after k chunks is no
   further than what is shown after l >= k chunks, always in range, and when all has arrived the interface
   shows the outcome of the scan.
   */
  lemma EndToEnd(w: Work, schedule: seq<nat>, terminal: Event, codec: Codec, waits: seq<Wait>, chunks: seq<string>,
                 k: nat, l: nat)
    requires ValidWork(w) && Schedules(w, schedule) && Terminal(terminal) && Lawful(codec)
    requires EventsIn(Served(waits)) == HostScan.After(w, Start(w), schedule).queue + [terminal]
    requires Joined(chunks) == EncodeAll(BlocksFor(codec, Served(waits)))
    requires k <= l <= |chunks|
    ensures NoFurther(Shown(codec, chunks[..k]).state, Shown(codec, chunks[..l]).state, |w.hosts|)
    ensures terminal.Complete? ==>
      var s := Shown(codec, chunks).state;
      s.status == Finished && s.progress == 100 && s.hostsFound == Some(terminal.online)
          && s.totalHosts == terminal.totalHosts
    ensures terminal.Error? ==>
      Shown(codec, chunks).state.status == Errored
          && Shown(codec, chunks).state.errorMessage == Some(terminal.message)
  {
    var events := EventsIn(Served(waits));
    QueueOfScan(w, schedule, terminal);
    ShownInOrder(w, events, codec, Served(waits), chunks, k, l);
    ShownAtTheEnd(events, codec, Served(waits), chunks);
  }

  lemma ShownInOrder(w: Work, events: seq<Event>, codec: Codec, waits: seq<Wait>, chunks: seq<string>, k: nat, l: nat)
    requires ScanEvents(events, |w.hosts|) && Lawful(codec) && Yielding(waits) && EventsIn(waits) == events
    requires Joined(chunks) == EncodeAll(BlocksFor(codec, waits)) && k <= l <= |chunks|
    ensures NoFurther(Shown(codec, chunks[..k]).state, Shown(codec, chunks[..l]).state, |w.hosts|)
  {
    var m := ShownIsAPrefix(codec, waits, chunks, k);
    var n := ShownIsAPrefix(codec, waits, chunks, l);
    FramesGrow("", chunks[..l], k);
    assert chunks[..l][..k] == chunks[..k];
    PrefixesRise(|w.hosts|, waits, m, n);
  }

  lemma PrefixesRise(total: nat, waits: seq<Wait>, m: nat, n: nat)
    requires ScanEvents(EventsIn(waits), total) && m <= n <= |waits|
    ensures NoFurther(StateAfter(SCAN_STARTED, EventsIn(waits[..m])),
            StateAfter(SCAN_STARTED, EventsIn(waits[..n])), total)
  {
    var i, j := PrefixLengths(waits, m, n);
    ProgressNeverFalls(EventsIn(waits), total, i, j);
  }

  lemma PrefixLengths(waits: seq<Wait>, m: nat, n: nat) returns (i: nat, j: nat)
    requires m <= n <= |waits|
    ensures i <= j <= |EventsIn(waits)|
    ensures EventsIn(waits[..m]) == EventsIn(waits)[..i] && EventsIn(waits[..n]) == EventsIn(waits)[..j]
  {
    EventsInPrefix(waits, m);
    EventsInPrefix(waits, n);
    EventsInPrefix(waits[..n], m);
    assert waits[..n][..m] == waits[..m];
    i, j := |EventsIn(waits[..m])|, |EventsIn(waits[..n])|;
  }

  lemma ShownAtTheEnd(events: seq<Event>, codec: Codec, waits: seq<Wait>, chunks: seq<string>)
    requires events != [] && Lawful(codec) && Yielding(waits) && EventsIn(waits) == events
    requires Joined(chunks) == EncodeAll(BlocksFor(codec, waits))
    ensures Shown(codec, chunks)
            == Showing(OnEvent(StateAfter(SCAN_STARTED, events[..|events| - 1]), events[|events| - 1]))
  {
    assert chunks[..|chunks|] == chunks;
    var n := ShownIsAPrefix(codec, waits, chunks, |chunks|);
    assert waits[..n] == waits;
  }

  /** The same for a scan that succeeded: the numbers shown are those of the hosts. */
  lemma SuccessIsShown(w: Work, schedule: seq<nat>, local: map<string, Local>, codec: Codec, waits: seq<Wait>,
                       chunks: seq<string>)
    requires ValidWork(w) && Schedules(w, schedule) && Lawful(codec)
    requires EventsIn(Served(waits)) == HostScan.After(w, Start(w), schedule).queue + [Outcome(ScanResults(w, local))]
    requires Joined(chunks) == EncodeAll(BlocksFor(codec, Served(waits)))
    ensures var s := Shown(codec, chunks).state;
            && s.status == Finished && s.progress == 100
            && s.hostsFound == Some(|Online(w, |w.hosts|)|)
            && s.totalHosts == |Online(w, |w.hosts|)| + |Offline(w, |w.hosts|)|
  {
    var results := ScanResults(w, local);
    OutcomeIsSuccess(w, local);
    EndToEnd(w, schedule, Outcome(results), codec, waits, chunks, 0, 0);
  }
}
