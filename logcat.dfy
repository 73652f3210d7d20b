/**
  The logcat tailer (utils/AndroidEmulatorObserverThread.py): a thread that runs
  `adb logcat`, waits for a line that reveals the application's bundle id, then
  forwards every line that matches the log pattern built from it, rendered, to
  the debugger's console.

  The output of `adb logcat` is a sequence of reads: a line as `readline`
  returns it (the empty string marks the end of the stream) or a failure of
  the read. What the loop writes is specified by `Scan`, one line at a time,
  and `ScanAll`, over the lines in order.
 */
module Logcat {
  import opened Wrappers
  import opened Text
  import opened LogLine
  import opened Environment
  import opened Sequences

  /** The tag of the tailer's logger. */
  const AdbTag := "ADB"

  function Announcement(bundle: string): string {
    Tagged(AdbTag, "Logcat started! Waiting for logs from " + bundle)
  }

  function ErrorLine(reason: string): string {
    Tagged(AdbTag, "Logcat error: " + reason)
  }

  const StoppedLine := Tagged(AdbTag, "Logcat stopped.")

  // ---------------------------------------------------------------------------
  // The filter, as a function of the lines read
  // ---------------------------------------------------------------------------

  /** What a line writes once the log pattern for `bundle` is built: its rendering if it matches. */
  function Forward(line: string, bundle: string): seq<string> {
    match ParseLine(line, bundle)
    case Some(rec) => [Render(rec)]
    case None => []
  }

  /** The result of scanning: the bundle id of the log pattern, once built, and the console lines. */
  datatype Scanned = Scanned(bundle: Option<string>, out: seq<string>)

  /**
    One pass of the loop body. Until the pattern is built, a line that
    reveals the bundle id builds it, is announced, and is then itself parsed
    with the new pattern; any other line is skipped.
   */
  function Scan(name: string, bundle: Option<string>, line: string): Scanned {
    match bundle
    case Some(b) => Scanned(bundle, Forward(line, b))
    case None =>
      match FindBundleId(line, name)
      case None => Scanned(None, [])
      case Some(b) => Scanned(Some(b), [Announcement(b)] + Forward(line, b))
  }

  /** The loop body run over `lines` in order. */
  function ScanAll(name: string, bundle: Option<string>, lines: seq<string>): Scanned {
    if lines == [] then Scanned(bundle, [])
    else
      var before := ScanAll(name, bundle, lines[..|lines| - 1]);
      var step := Scan(name, before.bundle, lines[|lines| - 1]);
      Scanned(step.bundle, before.out + step.out)
  }

  lemma ScanAllAppend(name: string, lines: seq<string>, line: string)
    ensures ScanAll(name, None, lines + [line]) ==
      var before := ScanAll(name, None, lines);
      var step := Scan(name, before.bundle, line);
      Scanned(step.bundle, before.out + step.out)
  {
    assert (lines + [line])[..|lines|] == lines;
  }

  /** Reference definition of the forwarding phase: each line in turn, filtered and rendered. */
  function Forwarded(bundle: string, lines: seq<string>): seq<string> {
    if lines == [] then [] else Forward(lines[0], bundle) + Forwarded(bundle, lines[1..])
  }

  /** The first line that reveals the bundle id. */
  function FirstReveal(name: string, lines: seq<string>): (r: Option<nat>)
    ensures r.Some? ==> r.value < |lines| && FindBundleId(lines[r.value], name).Some?
    ensures r.Some? ==> forall j :: 0 <= j < r.value ==> FindBundleId(lines[j], name).None?
    ensures r.None? ==> forall j :: 0 <= j < |lines| ==> FindBundleId(lines[j], name).None?
  {
    if lines == [] then None
    else if FindBundleId(lines[0], name).Some? then Some(0)
    else
      match FirstReveal(name, lines[1..])
      case None => None
      case Some(k) => Some(k + 1)
  }

  lemma {:induction false} ForwardedAppend(bundle: string, lines: seq<string>, line: string)
    ensures Forwarded(bundle, lines + [line]) == Forwarded(bundle, lines) + Forward(line, bundle)
    decreases |lines|
  {
    if lines == [] {
      assert [line][1..] == [];
    } else {
      assert (lines + [line])[1..] == lines[1..] + [line];
      ForwardedAppend(bundle, lines[1..], line);
    }
  }

  /** Once the pattern is built it is kept, and every line is filtered through it. */
  lemma {:induction false} ScanAllBuilt(name: string, bundle: string, lines: seq<string>)
    ensures ScanAll(name, Some(bundle), lines) == Scanned(Some(bundle), Forwarded(bundle, lines))
    decreases |lines|
  {
    if lines != [] {
      var init, last := lines[..|lines| - 1], lines[|lines| - 1];
      ScanAllBuilt(name, bundle, init);
      ForwardedAppend(bundle, init, last);
      Snoc(lines);
      assert Scan(name, Some(bundle), last) == Scanned(Some(bundle), Forward(last, bundle));
    }
  }

  /** A line reveals the bundle id when the discovery pattern finds a match in it. */
  predicate Reveals(line: string, name: string) {
    FindBundleId(line, name).Some?
  }

  lemma RevealAppend(name: string, lines: seq<string>, line: string)
    ensures FirstReveal(name, lines + [line]) ==
      if FirstReveal(name, lines).Some? then FirstReveal(name, lines)
      else if Reveals(line, name) then Some(|lines|)
      else None
  {
    var all := lines + [line];
    assert forall j :: 0 <= j < |lines| ==> all[j] == lines[j];
    assert all[|lines|] == line;
  }

  /** What the filter writes for `lines`, by its two phases. */
  function Phases(name: string, lines: seq<string>): Scanned {
    match FirstReveal(name, lines)
    case None => Scanned(None, [])
    case Some(k) =>
      var b := FindBundleId(lines[k], name).value;
      Scanned(Some(b), [Announcement(b)] + Forwarded(b, lines[k..]))
  }

  /**
    The two phases of the filter. Lines before the first one that reveals the
    bundle id write nothing; that line builds the pattern, which is announced
    once and never rebuilt, and from that line on, itself included, exactly
    the lines that match the pattern are forwarded, rendered, in order.
   */
  lemma {:induction false} ScanAllPhases(name: string, lines: seq<string>)
    ensures ScanAll(name, None, lines) == Phases(name, lines)
    decreases |lines|
  {
    if lines != [] {
      var init, last := lines[..|lines| - 1], lines[|lines| - 1];
      Snoc(lines);
      ScanAllPhases(name, init);
      RevealAppend(name, init, last);
      if FirstReveal(name, init).Some? {
        PhasesGrow(name, init, last);
      } else if Reveals(last, name) {
        PhasesStart(name, init, last);
      }
    }
  }

  lemma PhasesGrow(name: string, init: seq<string>, last: string)
    requires FirstReveal(name, init).Some?
    ensures Phases(name, init + [last]).bundle == Phases(name, init).bundle
    ensures Phases(name, init + [last]).out == Phases(name, init).out + Forward(last, Phases(name, init).bundle.value)
  {
    RevealAppend(name, init, last);
    var k := FirstReveal(name, init).value;
    var lines := init + [last];
    var b := FindBundleId(init[k], name).value;
    PhasesFrom(name, init, k, b);
    PhasesFrom(name, lines, k, b);
    SliceSnoc(init, last, k);
    ForwardedAppend(b, init[k..], last);
    Associative([Announcement(b)], Forwarded(b, init[k..]), Forward(last, b));
  }

  lemma PhasesFrom(name: string, lines: seq<string>, k: nat, b: string)
    requires FirstReveal(name, lines) == Some(k) && FindBundleId(lines[k], name) == Some(b)
    ensures Phases(name, lines) == Scanned(Some(b), [Announcement(b)] + Forwarded(b, lines[k..]))
  {
  }

  lemma PhasesStart(name: string, init: seq<string>, last: string)
    requires FirstReveal(name, init).None? && Reveals(last, name)
    ensures Phases(name, init + [last]) == Scan(name, None, last)
  {
    RevealAppend(name, init, last);
    var lines := init + [last];
    assert lines[|init|] == last;
    assert lines[|init|..] == [last];
    var b := FindBundleId(last, name).value;
    ForwardedOne(b, last);
    assert Phases(name, lines) == Scanned(Some(b), [Announcement(b)] + Forwarded(b, [last]));
  }

  lemma ForwardedOne(bundle: string, line: string)
    ensures Forwarded(bundle, [line]) == Forward(line, bundle)
  {
    assert [line][1..] == [];
  }

  /** A console line written by `redirect`, as opposed to the logger's own messages. */
  predicate IsForwarded(s: string) {
    |s| > 0 && s[0] == Robot
  }

  lemma {:induction false} ForwardedAreRendered(bundle: string, lines: seq<string>)
    ensures forall i :: 0 <= i < |Forwarded(bundle, lines)| ==> IsForwarded(Forwarded(bundle, lines)[i])
    decreases |lines|
  {
    if lines != [] {
      ForwardedAreRendered(bundle, lines[1..]);
    }
  }

  /**
    "Logcat started!" is written at most once per stream: every console line
    of the filter but the first is a forwarded log line, and the first is
    the announcement exactly when some line reveals the bundle id.
   */
  lemma AnnouncedOnce(name: string, lines: seq<string>)
    ensures var out := ScanAll(name, None, lines).out;
      (forall i :: 1 <= i < |out| ==> IsForwarded(out[i])) &&
      (FirstReveal(name, lines).Some? <==> (out != [] && !IsForwarded(out[0])))
  {
    ScanAllPhases(name, lines);
    match FirstReveal(name, lines)
    case None =>
    case Some(k) =>
      var b := FindBundleId(lines[k], name).value;
      PhasesFrom(name, lines, k, b);
      AnnouncedFirst(b, lines[k..]);
  }

  lemma AnnouncedFirst(bundle: string, lines: seq<string>)
    ensures var out := [Announcement(bundle)] + Forwarded(bundle, lines);
      (forall i :: 1 <= i < |out| ==> IsForwarded(out[i])) && out != [] && !IsForwarded(out[0])
  {
    ForwardedAreRendered(bundle, lines);
    var out := [Announcement(bundle)] + Forwarded(bundle, lines);
    forall i | 1 <= i < |out|
      ensures IsForwarded(out[i])
    {
      assert out[i] == Forwarded(bundle, lines)[i - 1];
    }
    assert out[0][0] == '[';
  }

  // ---------------------------------------------------------------------------
  // The read loop, as a function of what is read
  // ---------------------------------------------------------------------------

  /** One `readline`: a line (`""` at the end of the stream), or a failure with its message. */
  datatype Read = Line(text: string) | Failure(reason: string)

  /** The loop stops at this read: end of stream, a failure, or the running flag cleared. */
  predicate Stops(r: Read, running: bool) {
    r.Failure? || r.text == "" || !running
  }

  /** How many reads the loop body processes before it stops. */
  function Processed(input: seq<Read>, running: bool): (n: nat)
    ensures n <= |input|
    ensures forall j :: 0 <= j < n ==> !Stops(input[j], running)
    ensures n < |input| ==> Stops(input[n], running)
  {
    if input == [] || Stops(input[0], running) then 0
    else 1 + Processed(input[1..], running)
  }

  /** The texts of the processed reads. */
  function Texts(input: seq<Read>): (r: seq<string>)
    ensures |r| == |input|
    ensures forall j :: 0 <= j < |input| && input[j].Line? ==> r[j] == input[j].text
  {
    if input == [] then []
    else Texts(input[..|input| - 1]) + [match input[|input| - 1] case Line(t) => t case Failure(_) => ""]
  }

  /**
    What the read loop writes: the filter's output for the lines processed,
    then the error message if the loop stopped at a failed read.
   */
  function FollowOutput(name: string, input: seq<Read>, running: bool): seq<string> {
    var n := Processed(input, running);
    ScanAll(name, None, Texts(input[..n])).out +
      (if n < |input| && input[n].Failure? then [ErrorLine(input[n].reason)] else [])
  }

  /** The loop body takes the filter from the reads before `i` to those up to `i`. */
  lemma ScanNext(name: string, input: seq<Read>, i: nat)
    requires i < |input| && input[i].Line?
    ensures ScanAll(name, None, Texts(input[..i + 1])) ==
      var before := ScanAll(name, None, Texts(input[..i]));
      var step := Scan(name, before.bundle, input[i].text);
      Scanned(step.bundle, before.out + step.out)
  {
    assert Texts(input[..i + 1]) == Texts(input[..i]) + [input[i].text] by {
      assert input[..i + 1][..i] == input[..i];
    }
    ScanAllAppend(name, Texts(input[..i]), input[i].text);
  }

  lemma FollowOutputAt(name: string, input: seq<Read>, running: bool, i: nat)
    requires i <= Processed(input, running) && i < |input| && Stops(input[i], running)
    ensures Processed(input, running) == i
    ensures FollowOutput(name, input, running) == ScanAll(name, None, Texts(input[..i])).out +
      (if input[i].Failure? then [ErrorLine(input[i].reason)] else [])
  {
  }

  lemma FollowOutputAll(name: string, input: seq<Read>, running: bool)
    requires Processed(input, running) == |input|
    ensures FollowOutput(name, input, running) == ScanAll(name, None, Texts(input)).out
  {
    assert input[..|input|] == input;
  }

  // ---------------------------------------------------------------------------
  // The tailer's state
  // ---------------------------------------------------------------------------

  /**
    The fields of a tailer: whether history is cleared before tailing,
    whether it holds a child process, its running flag, and its thread's
    state (started, and still alive).
   */
  datatype TailerView = TailerView(clearHistory: bool, process: bool, running: bool, started: bool, alive: bool)

  /** A newly constructed tailer. */
  function Fresh(clearHistory: bool): TailerView {
    TailerView(clearHistory, false, false, false, false)
  }

  /** `stop()`: only a tailer holding a process is affected. */
  function StopView(v: TailerView): TailerView {
    if v.process then v.(running := false, process := false) else v
  }

  function StopLog(v: TailerView): seq<string> {
    if v.process then [StoppedLine] else []
  }

  function StopAdb(v: TailerView): seq<AdbCall> {
    if v.process then [Terminate] else []
  }

  /**
    `stop()` is idempotent: a second call changes nothing, writes nothing and
    terminates nothing, and after any call the tailer holds no process and
    is not running, unless it had no process to begin with.
   */
  lemma StopIdempotent(v: TailerView)
    ensures StopView(StopView(v)) == StopView(v)
    ensures StopLog(StopView(v)) == [] && StopAdb(StopView(v)) == []
    ensures !StopView(v).process
    ensures v.process ==> !StopView(v).running
  {
  }

  /**
    The thread's body dies before spawning: history was to be cleared and
    `subprocess.run` could not run `adb logcat -c`. That call sits outside
    the `try`, so the exception ends the thread without a console line.
   */
  predicate ClearRaises(clearHistory: bool, clearFails: bool) {
    clearHistory && clearFails
  }

  /** What running the thread's body writes to the console. */
  function RunLog(name: string, clearHistory: bool, clearFails: bool, spawnError: Option<string>, input: seq<Read>): seq<string> {
    if ClearRaises(clearHistory, clearFails) then []
    else
      match spawnError
      case Some(e) => [ErrorLine(e)]
      case None => FollowOutput(Lower(name), input, true)
  }

  /** The `adb` commands the thread's body runs: history is cleared first only when asked. */
  function RunAdb(clearHistory: bool, clearFails: bool, spawnError: Option<string>): seq<AdbCall> {
    if ClearRaises(clearHistory, clearFails) then []
    else (if clearHistory then [ClearHistory] else []) + (if spawnError.None? then [Follow] else [])
  }

  /**
    A tailer after start() and its thread's body: it holds a process exactly
    when `adb logcat` could be spawned, and its thread is still alive only
    while it waits for more output.
   */
  function RunView(v: TailerView, clearFails: bool, spawnError: Option<string>, input: seq<Read>): TailerView {
    var spawned := !ClearRaises(v.clearHistory, clearFails) && spawnError.None?;
    v.(started := true, process := spawned, running := spawned,
       alive := spawned && Processed(input, true) == |input|)
  }

  /**
    The listener's view of start(): the thread is started and its body has
    spawned `adb logcat` and waits for output.
   */
  function StartView(v: TailerView): TailerView {
    v.(started := true, alive := true, process := true, running := true)
  }

  /** The listener's view of start() is the thread's body with a successful spawn and nothing read yet. */
  lemma StartIsSpawnedRun(v: TailerView, name: string)
    ensures StartView(v) == RunView(v, false, None, [])
    ensures RunLog(name, v.clearHistory, false, None, []) == []
    ensures RunAdb(v.clearHistory, false, None) == (if v.clearHistory then [ClearHistory, Follow] else [Follow])
  {
    assert Texts([][..0]) == [];
  }

  /**
    A clear that cannot be run matters only to a tailer asked to clear: that
    thread ends with nothing logged, nothing run and no process held.
   */
  lemma ClearFailureSilent(v: TailerView, name: string, spawnError: Option<string>, input: seq<Read>)
    ensures !v.clearHistory ==>
      RunView(v, true, spawnError, input) == RunView(v, false, spawnError, input) &&
      RunLog(name, false, true, spawnError, input) == RunLog(name, false, false, spawnError, input) &&
      RunAdb(false, true, spawnError) == RunAdb(false, false, spawnError)
    ensures v.clearHistory ==>
      RunView(v, true, spawnError, input) == v.(started := true, process := false, running := false, alive := false) &&
      RunLog(name, true, true, spawnError, input) == [] && RunAdb(true, true, spawnError) == []
  {
  }

  /** An AndroidEmulatorObserverThread. */
  class Tailer {
    const host: Host
    const clearHistory: bool
    var process: bool
    var running: bool
    var started: bool
    var alive: bool

    function View(): TailerView
      reads this
    {
      TailerView(clearHistory, process, running, started, alive)
    }

    constructor (host: Host, clearHistory: bool)
      ensures this.host == host
      ensures View() == Fresh(clearHistory)
    {
      this.host := host;
      this.clearHistory := clearHistory;
      process, running := false, false;
      started, alive := false, false;
    }

    /** `stop()`: clears the running flag, terminates the child process and drops it. */
    method Stop()
      modifies this, host
      ensures View() == StopView(old(View()))
      ensures host.console == old(host.console) + StopLog(old(View()))
      ensures host.adb == old(host.adb) + StopAdb(old(View()))
    {
      if process {
        running := false;
        host.Run(Terminate);
        process := false;
        host.Log(AdbTag, "Logcat stopped.");
      }
    }

    /**
      `start()` as the listener sees it: the thread starts and its body gets
      as far as spawning `adb logcat`, clearing the history first if asked.
      A thread can be started only once.
     */
    method Start()
      requires !started
      modifies this, host
      ensures View() == StartView(old(View()))
      ensures host.console == old(host.console)
      ensures host.adb == old(host.adb) + RunAdb(clearHistory, false, None)
    {
      started, alive := true, true;
      if clearHistory {
        host.Run(ClearHistory);
      }
      host.Run(Follow);
      process, running := true, true;
    }

    /** The thread's body returned on its own: the end of adb's output or a failed read. */
    method Exit()
      modifies this
      ensures View() == old(View()).(alive := false)
    {
      alive := false;
    }

    /**
      The thread's body returned because `adb logcat` could not be spawned:
      `process` and `running` were never set.
     */
    method Fail()
      modifies this
      ensures View() == old(View()).(alive := false, process := false, running := false)
    {
      alive, process, running := false, false, false;
    }

    /**
      `join()` after stop(): the read loop sees the cleared running flag at
      its next line, or the end of the terminated process's output, and the
      thread ends.
     */
    method Join()
      requires !running
      modifies this
      ensures View() == old(View()).(alive := false)
    {
      alive := false;
    }

    /** One pass of the loop body for a line read while running. */
    method Handle(name: string, bundle: Option<string>, line: string) returns (bundle': Option<string>)
      modifies host
      ensures bundle' == Scan(name, bundle, line).bundle
      ensures host.console == old(host.console) + Scan(name, bundle, line).out
      ensures host.adb == old(host.adb)
    {
      bundle' := bundle;
      if bundle'.None? {
        var found := FindBundleId(line, name);
        if found.None? {
          return;
        }
        host.Log(AdbTag, "Logcat started! Waiting for logs from " + found.value);
        bundle' := found;
      }
      var rec := ParseLine(line, bundle'.value);
      if rec.Some? {
        host.Redirect(Render(rec.value));
      }
    }

    /** One pass of the read loop over the line `input[i]`. */
    method Consume(name: string, input: seq<Read>, i: nat, bundle: Option<string>, ghost seen: Scanned)
      returns (bundle': Option<string>, ghost seen': Scanned, ghost added: seq<string>)
      requires i < |input| && input[i].Line?
      requires seen == ScanAll(name, None, Texts(input[..i])) && bundle == seen.bundle
      modifies host
      ensures seen' == ScanAll(name, None, Texts(input[..i + 1])) && bundle' == seen'.bundle
      ensures seen'.out == seen.out + added
      ensures host.console == old(host.console) + added
      ensures host.adb == old(host.adb)
    {
      ghost var step := Scan(name, bundle, input[i].text);
      bundle' := Handle(name, bundle, input[i].text);
      ScanNext(name, input, i);
      seen' := Scanned(step.bundle, seen.out + step.out);
      added := step.out;
    }

    /**
      The read loop of `start_logcat`: input until the end of the stream, a
      failed read or a cleared running flag. When the input run out first,
      the thread is still waiting in `readline`.
     */
    method ReadLoop(name: string, input: seq<Read>)
      requires alive
      modifies this, host
      ensures host.console == old(host.console) + FollowOutput(name, input, running)
      ensures host.adb == old(host.adb)
      ensures View() == old(View()).(alive := Processed(input, running) == |input|)
    {
      var bundle: Option<string> := None;
      var i := 0;
      ghost var seen := ScanAll(name, None, []);
      while i < |input| && !Stops(input[i], running)
        invariant i <= Processed(input, running)
        invariant seen == ScanAll(name, None, Texts(input[..i]))
        invariant bundle == seen.bundle
        invariant host.console == old(host.console) + seen.out
        invariant host.adb == old(host.adb)
        invariant View() == old(View())
      {
        ghost var prev := seen.out;
        ghost var added;
        bundle, seen, added := Consume(name, input, i, bundle, seen);
        Associative(old(host.console), prev, added);
        i := i + 1;
      }
      Finish(name, input, i, seen, old(host.console));
    }

    /** After the read loop: report a failed read, and end the thread if the loop stopped. */
    method Finish(name: string, input: seq<Read>, i: nat, ghost seen: Scanned, ghost start: seq<string>)
      requires i <= Processed(input, running) && i <= |input|
      requires i < |input| ==> Stops(input[i], running)
      requires seen == ScanAll(name, None, Texts(input[..i]))
      requires host.console == start + seen.out
      modifies this, host
      ensures host.console == start + FollowOutput(name, input, running)
      ensures host.adb == old(host.adb)
      ensures View() == old(View()).(alive := old(alive) && Processed(input, running) == |input|)
    {
      if i < |input| {
        FollowOutputAt(name, input, running, i);
        if input[i].Failure? {
          host.Log(AdbTag, "Logcat error: " + input[i].reason);
          Associative(start, seen.out, [ErrorLine(input[i].reason)]);
        }
        alive := false;
      } else {
        FollowOutputAll(name, input, running);
      }
    }

    /**
      start() followed by the thread's body: clear the history if asked,
      spawn `adb logcat`, and follow its output with the pattern for the
      lower-cased process name. `clearFails` says that `adb logcat -c`
      cannot be run, and `spawnError` that `adb logcat` cannot be spawned.
     */
    method Run(name: string, clearFails: bool, spawnError: Option<string>, input: seq<Read>)
      requires !started && !process && !running
      modifies this, host
      ensures View() == RunView(old(View()), clearFails, spawnError, input)
      ensures host.console == old(host.console) + RunLog(name, clearHistory, clearFails, spawnError, input)
      ensures host.adb == old(host.adb) + RunAdb(clearHistory, clearFails, spawnError)
    {
      started, alive := true, true;
      if clearHistory {
        if clearFails {
          alive := false;
          return;
        }
        host.Run(ClearHistory);
      }
      match spawnError
      case Some(e) =>
        host.Log(AdbTag, "Logcat error: " + e);
        alive := false;
      case None =>
        host.Run(Follow);
        process, running := true, true;
        ReadLoop(Lower(name), input);
    }
  }
}
