/**
  The debug-session listener (utils/DebugSessionListeningThread.py): a thread
  that waits until the debugger has a target with a valid process, then
  follows the process's state changes and drives the logcat tailer: it starts
  the tailer when the process runs, stops and replaces it when the process
  stops or crashes, and stops it for good when the process exits or detaches.

  lldb is replaced by its inputs: the probes of the debugger while waiting,
  and a sequence of events. An event is a process state as `GetState`
  reports it, or the tailer's thread ending on its own. The tailer is seen
  through its `TailerView`; `Supervise` specifies the event loop and
  `Listener.Listen` implements it.
 */
module Supervisor {
  import opened Wrappers
  import opened Environment
  import opened Logcat

  // ---------------------------------------------------------------------------
  // Process states and the listener's messages
  // ---------------------------------------------------------------------------

  /** lldb's process states, `eStateInvalid` to `eStateSuspended`. */
  datatype State =
    | Invalid | Unloaded | Connected | Attaching | Launching | Stopped
    | Running | Stepping | Crashed | Detached | Exited | Suspended

  /** `SBDebugger.StateAsCString`. */
  function StateName(s: State): string {
    match s
    case Invalid => "invalid"
    case Unloaded => "unloaded"
    case Connected => "connected"
    case Attaching => "attaching"
    case Launching => "launching"
    case Stopped => "stopped"
    case Running => "running"
    case Stepping => "stepping"
    case Crashed => "crashed"
    case Detached => "detached"
    case Exited => "exited"
    case Suspended => "suspended"
  }

  const ListenerTag := "Listener"

  function StateLine(s: State): string {
    Tagged(ListenerTag, "Current process state: " + StateName(s))
  }

  const StartingLine := Tagged(ListenerTag, "Starting Logcat redirection and clearing history...")
  const ResumingLine := Tagged(ListenerTag, "Resuming Logcat redirection without clearing history...")
  const PausingLine := Tagged(ListenerTag, "Pausing Logcat redirection...")
  const CleanupLine := Tagged(ListenerTag, "Process exited/detached. Cleaning up Logcat...")
  const WaitingLine := Tagged(ListenerTag, "Waiting for debugger!...")
  const ListeningLine := Tagged(ListenerTag, "Listening debugger events started.")

  /** What is announced before a tailer is started. */
  function Announce(v: TailerView): string {
    if v.clearHistory then StartingLine else ResumingLine
  }

  // ---------------------------------------------------------------------------
  // Waiting for a process
  // ---------------------------------------------------------------------------

  /** One look at the debugger: how many targets it has, and whether the first one's process is valid. */
  datatype Probe = Probe(targets: nat, valid: bool)

  predicate Ready(p: Probe) {
    p.targets > 0 && p.valid
  }

  /** The first probe that finds a valid process. */
  function FirstReady(probes: seq<Probe>): (r: Option<nat>)
    ensures r.Some? ==> r.value < |probes| && Ready(probes[r.value])
    ensures r.Some? ==> forall j :: 0 <= j < r.value ==> !Ready(probes[j])
    ensures r.None? ==> forall j :: 0 <= j < |probes| ==> !Ready(probes[j])
  {
    if probes == [] then None
    else if Ready(probes[0]) then Some(0)
    else
      match FirstReady(probes[1..])
      case None => None
      case Some(k) => Some(k + 1)
  }

  /**
    What the waiting loop writes: one "Waiting" line per probe that finds no
    valid process, then, once one does, the start of listening.
   */
  function WaitLog(probes: seq<Probe>): seq<string> {
    match FirstReady(probes)
    case None => seq(|probes|, _ => WaitingLine)
    case Some(k) => seq(k, _ => WaitingLine) + [ListeningLine]
  }

  // ---------------------------------------------------------------------------
  // The event loop, as a function of the events
  // ---------------------------------------------------------------------------

  /**
    What the listener sees: a state reported by `GetState`, or the current
    tailer's thread ending on its own, either after its read loop stopped
    (`TailerEnded`) or because `adb logcat` could not be spawned
    (`SpawnFailed`).
   */
  datatype Event = Reported(state: State) | TailerEnded | SpawnFailed

  /** A call on the tailer with the given number; tailer 0 is the one built with the listener. */
  datatype Action = Start(id: nat) | Stop(id: nat) | Join(id: nat) | Create(id: nat)

  /** The event loop is listening, left its loop, or died of an exception. */
  datatype Outcome = Listening | Finished | Raised

  /**
    The listener's state: the last state acted on, the current tailer and its
    number, the tailers replaced so far, the outcome, the console and `adb`
    records, and the calls made on tailers.
   */
  datatype Sup = Sup(last: Option<State>, current: TailerView, id: nat, retired: seq<TailerView>,
                     outcome: Outcome, console: seq<string>, adb: seq<AdbCall>, actions: seq<Action>)

  /** The state when the event loop begins: no state seen, and the listener's own tailer. */
  function Initial(console: seq<string>, adb: seq<AdbCall>): Sup {
    Sup(None, Fresh(false), 0, [], Listening, console, adb, [])
  }

  /** A report repeating the last state, or an invalid one, is skipped. */
  predicate Ignored(sup: Sup, s: State) {
    sup.last == Some(s) || s == Invalid
  }

  /** A new state is recorded and logged. */
  function Note(sup: Sup, s: State): Sup {
    sup.(last := Some(s), console := sup.console + [StateLine(s)])
  }

  function Say(sup: Sup, line: string): Sup {
    sup.(console := sup.console + [line])
  }

  /** `stop()` on the current tailer. */
  function StopCurrent(sup: Sup): Sup {
    sup.(current := StopView(sup.current),
         console := sup.console + StopLog(sup.current),
         adb := sup.adb + StopAdb(sup.current),
         actions := sup.actions + [Stop(sup.id)])
  }

  /** `join()` on the current tailer, which is then dropped for a fresh one. */
  function Replace(sup: Sup): Sup {
    sup.(retired := sup.retired + [sup.current.(alive := false)],
         current := Fresh(false),
         id := sup.id + 1,
         actions := sup.actions + [Join(sup.id), Create(sup.id + 1)])
  }

  /** The announcement, then `start()` on the current tailer. */
  function Launch(sup: Sup): Sup {
    sup.(console := sup.console + [Announce(sup.current)],
         current := StartView(sup.current),
         adb := sup.adb + RunAdb(sup.current.clearHistory, false, None),
         actions := sup.actions + [Start(sup.id)])
  }

  /**
    The action for a new state. On Running a tailer that is not alive is
    started; one that was started before and has ended is first stopped,
    joined and replaced, since a thread can be started only once.
   */
  function React(sup: Sup, s: State): Sup {
    if s == Running then
      if sup.current.alive then sup
      else if sup.current.started then Launch(Replace(StopCurrent(sup)))
      else Launch(sup)
    else if s == Stopped || s == Crashed then
      if sup.current.alive then Replace(StopCurrent(Say(sup, PausingLine))) else sup
    else if s == Exited || s == Detached then
      StopCurrent(Say(sup, CleanupLine)).(outcome := Finished)
    else sup
  }

  /** One event. Once the loop has ended, nothing changes. */
  function Step(sup: Sup, e: Event): Sup {
    if sup.outcome != Listening then sup
    else
      match e
      case TailerEnded =>
        if sup.current.alive then sup.(current := sup.current.(alive := false)) else sup
      case SpawnFailed =>
        if sup.current.alive then sup.(current := sup.current.(alive := false, process := false, running := false))
        else sup
      case Reported(s) =>
        if Ignored(sup, s) then sup else React(Note(sup, s), s)
  }

  /** The event loop over `events` in order. */
  function Supervise(sup: Sup, events: seq<Event>): Sup
    decreases |events|
  {
    if events == [] then sup
    else Step(Supervise(sup, events[..|events| - 1]), events[|events| - 1])
  }

  // ---------------------------------------------------------------------------
  // The restart of an ended tailer, as written
  // ---------------------------------------------------------------------------

  /**
    The case the code as written gets wrong: Running is reported while the
    tailer is not alive but was started before. `start()` is called on it
    again, and raises.
   */
  predicate Restarts(sup: Sup, e: Event) {
    sup.outcome == Listening && e == Reported(Running) && !Ignored(sup, Running) &&
    !sup.current.alive && sup.current.started
  }

  /**
    One event as written: in the restart case the state and the announcement
    are logged, then `start()` raises `RuntimeError`, which ends the thread.
   */
  function StepAsWritten(sup: Sup, e: Event): Sup {
    if Restarts(sup, e) then Say(Note(sup, Running), Announce(sup.current)).(outcome := Raised)
    else Step(sup, e)
  }

  function SuperviseAsWritten(sup: Sup, events: seq<Event>): Sup
    decreases |events|
  {
    if events == [] then sup
    else StepAsWritten(SuperviseAsWritten(sup, events[..|events| - 1]), events[|events| - 1])
  }

  // ---------------------------------------------------------------------------
  // Invariants
  // ---------------------------------------------------------------------------

  /**
    A tailer as the listener can hold it: alive only while it holds a running
    process, running only with a process, holding a process only once
    started, and never asked to clear the history.
   */
  predicate Healthy(v: TailerView) {
    (v.alive ==> v.started && v.process && v.running) &&
    (v.running ==> v.process) &&
    (!v.started ==> !v.process && !v.alive) &&
    !v.clearHistory
  }

  /** A replaced tailer: its thread has ended and it holds no process. */
  predicate Dead(v: TailerView) {
    !v.alive && !v.running && !v.process
  }

  /** Every start recorded is of an earlier tailer, or of the current one, which is then started. */
  predicate StartsTracked(sup: Sup) {
    forall j :: 0 <= j < |sup.actions| && sup.actions[j].Start? ==>
      sup.actions[j].id < sup.id || (sup.actions[j].id == sup.id && sup.current.started)
  }

  /** No tailer is started twice. */
  predicate StartsOnce(actions: seq<Action>) {
    forall i, j :: 0 <= i < j < |actions| && actions[i].Start? ==> actions[j] != actions[i]
  }

  predicate Inv(sup: Sup) {
    (sup.outcome == Listening ==> Healthy(sup.current)) &&
    |sup.retired| == sup.id &&
    (forall j :: 0 <= j < |sup.retired| ==> Dead(sup.retired[j])) &&
    StartsTracked(sup) && StartsOnce(sup.actions)
  }

  lemma InitialInv(console: seq<string>, adb: seq<AdbCall>)
    ensures Inv(Initial(console, adb))
  {
  }

  /** Appending calls other than `start()` keeps the record of starts. */
  lemma AppendNoStart(sup: Sup, extra: seq<Action>, sup': Sup)
    requires StartsTracked(sup) && StartsOnce(sup.actions)
    requires sup'.actions == sup.actions + extra && sup.id <= sup'.id
    requires sup'.id == sup.id ==> sup.current.started ==> sup'.current.started
    requires forall j :: 0 <= j < |extra| ==> !extra[j].Start?
    ensures StartsTracked(sup') && StartsOnce(sup'.actions)
  {
    var a := sup'.actions;
    forall i, j | 0 <= i < j < |a| && a[i].Start?
      ensures a[j] != a[i]
    {
      if j >= |sup.actions| {
        assert a[j] == extra[j - |sup.actions|];
      }
    }
  }

  lemma StopKeeps(sup: Sup)
    requires Inv(sup) && sup.outcome == Listening
    ensures var r := StopCurrent(sup);
      StartsTracked(r) && StartsOnce(r.actions) && |r.retired| == r.id &&
      (forall j :: 0 <= j < |r.retired| ==> Dead(r.retired[j])) &&
      !r.current.running && !r.current.process
  {
    AppendNoStart(sup, [Stop(sup.id)], StopCurrent(sup));
  }

  lemma ReplaceKeeps(sup: Sup)
    requires StartsTracked(sup) && StartsOnce(sup.actions) && |sup.retired| == sup.id
    requires forall j :: 0 <= j < |sup.retired| ==> Dead(sup.retired[j])
    requires !sup.current.running && !sup.current.process
    ensures var r := Replace(sup);
      StartsTracked(r) && StartsOnce(r.actions) && |r.retired| == r.id &&
      (forall j :: 0 <= j < |r.retired| ==> Dead(r.retired[j])) &&
      r.current == Fresh(false)
  {
    var r := Replace(sup);
    AppendNoStart(sup, [Join(sup.id), Create(sup.id + 1)], r);
    assert r.retired[sup.id] == sup.current.(alive := false);
  }

  lemma LaunchKeeps(sup: Sup)
    requires StartsTracked(sup) && StartsOnce(sup.actions)
    requires Healthy(sup.current) && !sup.current.started
    ensures var r := Launch(sup);
      StartsTracked(r) && StartsOnce(r.actions) && Healthy(r.current) && r.current.alive
  {
    var r := Launch(sup);
    var a := r.actions;
    forall i, j | 0 <= i < j < |a| && a[i].Start?
      ensures a[j] != a[i]
    {
      if j == |sup.actions| {
        assert a[i] == sup.actions[i];
      }
    }
  }

  /** Every event keeps the invariant. */
  lemma StepKeeps(sup: Sup, e: Event)
    requires Inv(sup)
    ensures Inv(Step(sup, e))
  {
    if sup.outcome == Listening && e.Reported? && !Ignored(sup, e.state) {
      var s := e.state;
      var n := Note(sup, s);
      assert Inv(n);
      if s == Running && !n.current.alive {
        if n.current.started {
          StopKeeps(n);
          ReplaceKeeps(StopCurrent(n));
          LaunchKeeps(Replace(StopCurrent(n)));
        } else {
          LaunchKeeps(n);
        }
      } else if (s == Stopped || s == Crashed) && n.current.alive {
        var p := Say(n, PausingLine);
        StopKeeps(p);
        ReplaceKeeps(StopCurrent(p));
      } else if s == Exited || s == Detached {
        var c := Say(n, CleanupLine);
        StopKeeps(c);
      }
    }
  }

  lemma {:induction false} SuperviseKeeps(sup: Sup, events: seq<Event>)
    requires Inv(sup)
    ensures Inv(Supervise(sup, events))
    decreases |events|
  {
    if events != [] {
      SuperviseKeeps(sup, events[..|events| - 1]);
      StepKeeps(Supervise(sup, events[..|events| - 1]), events[|events| - 1]);
    }
  }

  /**
    At every point of the loop no tailer is started twice, every replaced
    tailer has ended and holds no process, and while the loop listens the
    current tailer is the only one that can be alive.
   */
  lemma Supervised(console: seq<string>, adb: seq<AdbCall>, events: seq<Event>)
    ensures var r := Supervise(Initial(console, adb), events);
      StartsOnce(r.actions) &&
      (forall j :: 0 <= j < |r.retired| ==> !r.retired[j].alive && !r.retired[j].running && !r.retired[j].process) &&
      (r.outcome == Listening && r.current.alive ==> r.current.process && r.current.running)
  {
    SuperviseKeeps(Initial(console, adb), events);
  }

  // ---------------------------------------------------------------------------
  // What each state does
  // ---------------------------------------------------------------------------

  lemma {:induction false} SuperviseAppend(sup: Sup, a: seq<Event>, b: seq<Event>)
    ensures Supervise(sup, a + b) == Supervise(Supervise(sup, a), b)
    decreases |b|
  {
    if b == [] {
      assert a + b == a;
    } else {
      var ab := a + b;
      assert ab[..|ab| - 1] == a + b[..|b| - 1];
      SuperviseAppend(sup, a, b[..|b| - 1]);
    }
  }

  /** Once the loop has ended, later events change nothing. */
  lemma {:induction false} Settled(sup: Sup, events: seq<Event>)
    requires sup.outcome != Listening
    ensures Supervise(sup, events) == sup
    decreases |events|
  {
    if events != [] {
      Settled(sup, events[..|events| - 1]);
    }
  }

  /** Reporting a state twice acts once: the second report finds it as the last state, or the loop ended. */
  lemma StepTwice(sup: Sup, s: State)
    ensures Step(Step(sup, Reported(s)), Reported(s)) == Step(sup, Reported(s))
  {
  }

  /** `n` identical reports in a row act as one. */
  lemma {:induction false} Coalesced(sup: Sup, s: State, n: nat)
    requires n >= 1
    ensures Supervise(sup, seq(n, _ => Reported(s))) == Step(sup, Reported(s))
  {
    var reports := seq(n, _ => Reported(s));
    if n == 1 {
      assert reports[..0] == [];
    } else {
      assert reports[..n - 1] == seq(n - 1, _ => Reported(s));
      Coalesced(sup, s, n - 1);
      StepTwice(sup, s);
    }
  }

  /**
    A new Running state is logged once, and `start()` is called exactly when
    the tailer is not alive: on it, or, when it has run before, on a fresh
    tailer that replaces it. Either way a tailer is alive afterwards.
   */
  lemma RunningStarts(sup: Sup)
    requires Inv(sup) && sup.outcome == Listening && !Ignored(sup, Running)
    ensures var r := Step(sup, Reported(Running));
      r.last == Some(Running) && r.outcome == Listening && r.current.alive &&
      r.console[..|sup.console| + 1] == sup.console + [StateLine(Running)] &&
      r.actions == sup.actions +
        (if sup.current.alive then []
         else if sup.current.started then [Stop(sup.id), Join(sup.id), Create(sup.id + 1), Start(sup.id + 1)]
         else [Start(sup.id)]) &&
      (sup.current.alive ==> r == Note(sup, Running)) &&
      (!sup.current.alive ==>
        r.console == sup.console + [StateLine(Running)] +
                     (if sup.current.started then StopLog(sup.current) else []) + [ResumingLine] &&
        r.adb == sup.adb + (if sup.current.started then StopAdb(sup.current) else []) + [Follow] &&
        r.id == sup.id + (if sup.current.started then 1 else 0) &&
        r.retired == sup.retired + (if sup.current.started then [StopView(sup.current).(alive := false)] else []))
  {
    var r := Step(sup, Reported(Running));
    var n := Note(sup, Running);
    if !sup.current.alive {
      if sup.current.started {
        StopKeeps(n);
        ReplaceKeeps(StopCurrent(n));
        LaunchKeeps(Replace(StopCurrent(n)));
      } else {
        LaunchKeeps(n);
      }
    }
    assert r.console[..|sup.console| + 1] == n.console;
  }

  /**
    On a new Stopped or Crashed state an alive tailer is stopped, joined and
    replaced by a fresh one that is not started and does not clear the
    history; a tailer that is not alive is left as it is.
   */
  lemma PauseReplaces(sup: Sup, s: State)
    requires Inv(sup) && sup.outcome == Listening && !Ignored(sup, s) && (s == Stopped || s == Crashed)
    ensures var r := Step(sup, Reported(s));
      r.outcome == Listening &&
      (sup.current.alive ==>
        r.last == Some(s) && r.current == Fresh(false) && r.id == sup.id + 1 &&
        r.retired == sup.retired + [StopView(sup.current).(alive := false)] &&
        Dead(r.retired[sup.id]) &&
        r.console == sup.console + [StateLine(s), PausingLine, StoppedLine] &&
        r.adb == sup.adb + [Terminate] &&
        r.actions == sup.actions + [Stop(sup.id), Join(sup.id), Create(sup.id + 1)]) &&
      (!sup.current.alive ==> r == Note(sup, s))
  {
  }

  /**
    On a new Exited or Detached state the tailer is stopped and the loop
    ends: no later event is acted on.
   */
  lemma ExitEnds(sup: Sup, s: State, later: seq<Event>)
    requires sup.outcome == Listening && !Ignored(sup, s) && (s == Exited || s == Detached)
    ensures var r := Step(sup, Reported(s));
      r.outcome == Finished && r.last == Some(s) &&
      r.console == sup.console + [StateLine(s), CleanupLine] + StopLog(sup.current) &&
      r.adb == sup.adb + StopAdb(sup.current) &&
      r.actions == sup.actions + [Stop(sup.id)] &&
      r.current == StopView(sup.current) &&
      Supervise(r, later) == r
  {
    Settled(Step(sup, Reported(s)), later);
  }

  /** Any other new state is only recorded and logged. */
  lemma OtherStatesLog(sup: Sup, s: State)
    requires sup.outcome == Listening && !Ignored(sup, s)
    requires s !in {Running, Stopped, Crashed, Exited, Detached}
    ensures Step(sup, Reported(s)) == sup.(last := Some(s), console := sup.console + [StateLine(s)])
  {
  }

  /** A repeated or invalid state does nothing. */
  lemma IgnoredStates(sup: Sup, s: State)
    requires Ignored(sup, s)
    ensures Step(sup, Reported(s)) == sup
  {
  }

  /** `b` extends the records of `a` without clearing the history or announcing that it does. */
  predicate KeepsHistory(a: Sup, b: Sup) {
    |a.adb| <= |b.adb| && b.adb[..|a.adb|] == a.adb &&
    (forall j :: |a.adb| <= j < |b.adb| ==> b.adb[j] != ClearHistory) &&
    |a.console| <= |b.console| && b.console[..|a.console|] == a.console &&
    (forall j :: |a.console| <= j < |b.console| ==> b.console[j] != StartingLine)
  }

  lemma Appended(a: Sup, b: Sup, lines: seq<string>, calls: seq<AdbCall>)
    requires b.console == a.console + lines && b.adb == a.adb + calls
    requires StartingLine !in lines && ClearHistory !in calls
    ensures KeepsHistory(a, b)
  {
    forall j | |a.console| <= j < |b.console|
      ensures b.console[j] != StartingLine
    {
      assert b.console[j] == lines[j - |a.console|];
    }
    forall j | |a.adb| <= j < |b.adb|
      ensures b.adb[j] != ClearHistory
    {
      assert b.adb[j] == calls[j - |a.adb|];
    }
  }

  lemma KeepsTransitive(a: Sup, b: Sup, c: Sup)
    requires KeepsHistory(a, b) && KeepsHistory(b, c)
    ensures KeepsHistory(a, c)
  {
    assert c.adb[..|a.adb|] == c.adb[..|b.adb|][..|a.adb|];
    assert c.console[..|a.console|] == c.console[..|b.console|][..|a.console|];
    forall j | |a.adb| <= j < |b.adb|
      ensures c.adb[j] != ClearHistory
    {
      assert c.adb[j] == c.adb[..|b.adb|][j];
    }
    forall j | |a.console| <= j < |b.console|
      ensures c.console[j] != StartingLine
    {
      assert c.console[j] == c.console[..|b.console|][j];
    }
  }

  /** The listener's other lines differ from the clearing announcement, if only in length. */
  lemma OtherLines(s: State)
    ensures StateLine(s) != StartingLine && PausingLine != StartingLine
    ensures CleanupLine != StartingLine && ResumingLine != StartingLine
    ensures StoppedLine != StartingLine
  {
    assert |StateName(s)| <= 9;
  }

  lemma StopKeepsHistory(sup: Sup)
    requires StoppedLine != StartingLine
    ensures KeepsHistory(sup, StopCurrent(sup))
  {
    Appended(sup, StopCurrent(sup), StopLog(sup.current), StopAdb(sup.current));
  }

  lemma SayKeepsHistory(sup: Sup, line: string)
    requires line != StartingLine
    ensures KeepsHistory(sup, Say(sup, line))
  {
    Appended(sup, Say(sup, line), [line], []);
  }

  lemma LaunchKeepsHistory(sup: Sup)
    requires !sup.current.clearHistory
    ensures KeepsHistory(sup, Launch(sup))
  {
    OtherLines(Running);
    Appended(sup, Launch(sup), [ResumingLine], [Follow]);
  }

  lemma RestartKeepsHistory(sup: Sup)
    requires !sup.current.clearHistory
    ensures KeepsHistory(sup, Launch(Replace(StopCurrent(sup))))
  {
    OtherLines(Running);
    var p := StopCurrent(sup);
    var m := Replace(p);
    StopKeepsHistory(sup);
    Appended(p, m, [], []);
    KeepsTransitive(sup, p, m);
    LaunchKeepsHistory(m);
    KeepsTransitive(sup, m, Launch(m));
  }

  lemma SayStopKeepsHistory(sup: Sup, line: string)
    requires line != StartingLine
    ensures KeepsHistory(sup, StopCurrent(Say(sup, line)))
    ensures KeepsHistory(sup, Replace(StopCurrent(Say(sup, line))))
  {
    OtherLines(Running);
    var p := Say(sup, line);
    SayKeepsHistory(sup, line);
    StopKeepsHistory(p);
    KeepsTransitive(sup, p, StopCurrent(p));
    Appended(StopCurrent(p), Replace(StopCurrent(p)), [], []);
    KeepsTransitive(sup, StopCurrent(p), Replace(StopCurrent(p)));
  }

  lemma ReactKeepsHistory(sup: Sup, s: State)
    requires !sup.current.clearHistory
    ensures KeepsHistory(sup, React(sup, s))
  {
    OtherLines(s);
    if s == Running && !sup.current.alive {
      if sup.current.started {
        RestartKeepsHistory(sup);
      } else {
        LaunchKeepsHistory(sup);
      }
    } else if (s == Stopped || s == Crashed) && sup.current.alive {
      SayStopKeepsHistory(sup, PausingLine);
    } else if s == Exited || s == Detached {
      SayStopKeepsHistory(sup, CleanupLine);
    } else {
      Appended(sup, React(sup, s), [], []);
    }
  }

  /** One event keeps the history: it runs no `adb logcat -c` and announces no clearing start. */
  lemma StepHistory(sup: Sup, e: Event)
    requires !sup.current.clearHistory
    ensures !Step(sup, e).current.clearHistory && KeepsHistory(sup, Step(sup, e))
  {
    var r := Step(sup, e);
    if sup.outcome == Listening && e.Reported? && !Ignored(sup, e.state) {
      var s := e.state;
      var n := Note(sup, s);
      OtherLines(s);
      SayKeepsHistory(sup, StateLine(s));
      ReactKeepsHistory(n, s);
      KeepsTransitive(sup, n, r);
    } else {
      Appended(sup, r, [], []);
    }
  }

  /**
    The tailers the listener builds never clear the history: no `adb logcat
    -c` is run and every start is announced as resuming.
   */
  lemma {:induction false} HistoryKept(console: seq<string>, adb: seq<AdbCall>, events: seq<Event>)
    ensures !Supervise(Initial(console, adb), events).current.clearHistory
    ensures KeepsHistory(Initial(console, adb), Supervise(Initial(console, adb), events))
    decreases |events|
  {
    if events != [] {
      var init := events[..|events| - 1];
      HistoryKept(console, adb, init);
      var p := Supervise(Initial(console, adb), init);
      StepHistory(p, events[|events| - 1]);
      Appended(Initial(console, adb), Initial(console, adb), [], []);
      KeepsTransitive(Initial(console, adb), p, Supervise(Initial(console, adb), events));
    }
  }

  /** The sequence Running, Running, Stopped, Running: start, then stop and replace, then start the new tailer. */
  lemma PauseAndResume(console: seq<string>, adb: seq<AdbCall>)
    ensures var r := Supervise(Initial(console, adb),
                               [Reported(Running), Reported(Running), Reported(Stopped), Reported(Running)]);
      r.actions == [Start(0), Stop(0), Join(0), Create(1), Start(1)] &&
      r.retired == [TailerView(false, false, false, true, false)] &&
      r.current == TailerView(false, true, true, true, true) &&
      r.outcome == Listening && r.last == Some(Running)
  {
    var events := [Reported(Running), Reported(Running), Reported(Stopped), Reported(Running)];
    var s0 := Initial(console, adb);
    var s1 := Step(s0, events[0]);
    var s2 := Step(s1, events[1]);
    var s3 := Step(s2, events[2]);
    assert Supervise(s0, events[..1]) == s1 by { assert events[..1][..0] == []; }
    assert Supervise(s0, events[..2]) == s2 by { assert events[..2][..1] == events[..1]; }
    assert Supervise(s0, events[..3]) == s3 by { assert events[..3][..2] == events[..2]; }
    assert events[..4][..3] == events[..3];
    assert events[..4] == events;
  }

  // ---------------------------------------------------------------------------
  // The restart finding
  // ---------------------------------------------------------------------------

  /** As long as the restart case does not arise, the code as written and the corrected loop agree. */
  lemma {:induction false} AgreeUntilRestart(sup: Sup, events: seq<Event>)
    requires forall i :: 0 <= i < |events| ==> !Restarts(Supervise(sup, events[..i]), events[i])
    ensures SuperviseAsWritten(sup, events) == Supervise(sup, events)
    decreases |events|
  {
    if events != [] {
      var init := events[..|events| - 1];
      forall i | 0 <= i < |init|
        ensures !Restarts(Supervise(sup, init[..i]), init[i])
      {
        assert init[..i] == events[..i];
      }
      AgreeUntilRestart(sup, init);
    }
  }

  /**
    The tailer's read loop ends (say `adb` lost the device) while the process
    runs; the process then stops and runs again. As written, the listener
    calls `start()` on the ended tailer and dies with a `RuntimeError`; the
    corrected loop starts a fresh tailer and keeps listening.
   */
  lemma RestartRaises(console: seq<string>, adb: seq<AdbCall>)
    ensures var events := [Reported(Running), TailerEnded, Reported(Stopped), Reported(Running)];
      SuperviseAsWritten(Initial(console, adb), events).outcome == Raised &&
      Supervise(Initial(console, adb), events).outcome == Listening &&
      Supervise(Initial(console, adb), events).current.alive &&
      Supervise(Initial(console, adb), events).actions == [Start(0), Stop(0), Join(0), Create(1), Start(1)]
  {
    var events := [Reported(Running), TailerEnded, Reported(Stopped), Reported(Running)];
    var s0 := Initial(console, adb);
    assert events[..1][..0] == [] && events[..2][..1] == events[..1];
    assert events[..3][..2] == events[..2] && events[..4][..3] == events[..3] && events[..4] == events;
    var s1 := Step(s0, events[0]);
    var s2 := Step(s1, events[1]);
    var s3 := Step(s2, events[2]);
    assert Supervise(s0, events[..1]) == s1;
    assert Supervise(s0, events[..2]) == s2;
    assert Supervise(s0, events[..3]) == s3;
    assert SuperviseAsWritten(s0, events[..1]) == s1;
    assert SuperviseAsWritten(s0, events[..2]) == s2;
    assert SuperviseAsWritten(s0, events[..3]) == s3;
    assert Restarts(s3, events[3]);
  }

  /**
    The corrected loop keeps logcat redirected: after every new Running state
    a tailer is alive and the loop is still listening, and no tailer is ever
    started twice.
   */
  lemma RunningResumes(console: seq<string>, adb: seq<AdbCall>, events: seq<Event>)
    requires Supervise(Initial(console, adb), events).outcome == Listening
    requires !Ignored(Supervise(Initial(console, adb), events), Running)
    ensures var r := Supervise(Initial(console, adb), events + [Reported(Running)]);
      r.outcome == Listening && r.current.alive && StartsOnce(r.actions)
  {
    var p := Supervise(Initial(console, adb), events);
    SuperviseKeeps(Initial(console, adb), events);
    SuperviseAppend(Initial(console, adb), events, [Reported(Running)]);
    assert [Reported(Running)][..0] == [];
    RunningStarts(p);
    StepKeeps(p, Reported(Running));
  }

  // ---------------------------------------------------------------------------
  // What the code as written guarantees
  // ---------------------------------------------------------------------------

  /**
    As written, a new Running state acts as in the corrected loop unless the
    tailer has run and ended; then the state and the announcement are logged,
    no tailer is started, and the loop dies.
   */
  lemma RunningAsWritten(sup: Sup)
    requires sup.outcome == Listening && !Ignored(sup, Running)
    ensures var r := StepAsWritten(sup, Reported(Running));
      (sup.current.alive || !sup.current.started ==> r == Step(sup, Reported(Running))) &&
      (!sup.current.alive && sup.current.started ==>
        r.outcome == Raised && r.actions == sup.actions && r.current == sup.current &&
        r.console == sup.console + [StateLine(Running), Announce(sup.current)])
  {
  }

  /** The code as written keeps the invariant: the raise starts no tailer. */
  lemma StepAsWrittenKeeps(sup: Sup, e: Event)
    requires Inv(sup)
    ensures Inv(StepAsWritten(sup, e))
  {
    if !Restarts(sup, e) {
      StepKeeps(sup, e);
    }
  }

  lemma {:induction false} SuperviseAsWrittenKeeps(sup: Sup, events: seq<Event>)
    requires Inv(sup)
    ensures Inv(SuperviseAsWritten(sup, events))
    decreases |events|
  {
    if events != [] {
      SuperviseAsWrittenKeeps(sup, events[..|events| - 1]);
      StepAsWrittenKeeps(SuperviseAsWritten(sup, events[..|events| - 1]), events[|events| - 1]);
    }
  }

  /**
    The code as written never starts a tailer twice, and every tailer it
    replaces has ended and holds no process; the second `start()` raises
    instead of starting.
   */
  lemma SupervisedAsWritten(console: seq<string>, adb: seq<AdbCall>, events: seq<Event>)
    ensures var r := SuperviseAsWritten(Initial(console, adb), events);
      StartsOnce(r.actions) &&
      (forall j :: 0 <= j < |r.retired| ==> !r.retired[j].alive && !r.retired[j].running && !r.retired[j].process) &&
      (r.outcome == Listening && r.current.alive ==> r.current.process && r.current.running)
  {
    SuperviseAsWrittenKeeps(Initial(console, adb), events);
  }

  /** As written, reporting a state twice in a row acts once too. */
  lemma StepTwiceAsWritten(sup: Sup, s: State)
    ensures StepAsWritten(StepAsWritten(sup, Reported(s)), Reported(s)) == StepAsWritten(sup, Reported(s))
  {
  }

  lemma {:induction false} CoalescedAsWritten(sup: Sup, s: State, n: nat)
    requires n >= 1
    ensures SuperviseAsWritten(sup, seq(n, _ => Reported(s))) == StepAsWritten(sup, Reported(s))
  {
    var reports := seq(n, _ => Reported(s));
    if n == 1 {
      assert reports[..0] == [];
    } else {
      assert reports[..n - 1] == seq(n - 1, _ => Reported(s));
      CoalescedAsWritten(sup, s, n - 1);
      StepTwiceAsWritten(sup, s);
    }
  }

  // ---------------------------------------------------------------------------
  // The tailer's own ending, as its thread's body sees it
  // ---------------------------------------------------------------------------

  /** `TailerEnded` is where the body of a started tailer leaves when its read loop stops. */
  lemma EndedIsRun(v: TailerView, input: seq<Read>)
    requires Processed(input, true) < |input|
    ensures StartView(v).(alive := false) == RunView(v, false, None, input)
  {
  }

  /** `SpawnFailed` is where the body of a started tailer leaves when `adb logcat` cannot be spawned. */
  lemma FailedIsRun(v: TailerView, reason: string, input: seq<Read>)
    ensures StartView(v).(alive := false, process := false, running := false) == RunView(v, false, Some(reason), input)
  {
  }

  // ---------------------------------------------------------------------------
  // The thread
  // ---------------------------------------------------------------------------

  /** A DebugSessionListeningThread. */
  class Listener {
    const host: Host
    var tailer: Tailer
    ghost var id: nat
    ghost var retired: seq<TailerView>
    ghost var actions: seq<Action>

    /** The listener's state, given the loop's last state and outcome. */
    ghost function Snapshot(last: Option<State>, outcome: Outcome): Sup
      reads this, tailer, host
    {
      Sup(last, tailer.View(), id, retired, outcome, host.console, host.adb, actions)
    }

    constructor (host: Host)
      ensures this.host == host && tailer.host == host && fresh(tailer)
      ensures Snapshot(None, Listening) == Initial(host.console, host.adb)
    {
      this.host := host;
      tailer := new Tailer(host, false);
      id, retired, actions := 0, [], [];
    }

    /** The first loop of `run`: look for a valid process until one is found. */
    method AwaitProcess(probes: seq<Probe>) returns (ready: bool)
      modifies host
      ensures ready == FirstReady(probes).Some?
      ensures host.console == old(host.console) + WaitLog(probes)
      ensures host.adb == old(host.adb)
    {
      var i := 0;
      while i < |probes| && !Ready(probes[i])
        invariant i <= |probes|
        invariant forall j :: 0 <= j < i ==> !Ready(probes[j])
        invariant host.console == old(host.console) + seq(i, _ => WaitingLine)
        invariant host.adb == old(host.adb)
      {
        host.Log(ListenerTag, "Waiting for debugger!...");
        assert seq(i + 1, _ => WaitingLine) == seq(i, _ => WaitingLine) + [WaitingLine];
        i := i + 1;
      }
      ready := i < |probes|;
      if ready {
        host.Log(ListenerTag, "Listening debugger events started.");
      }
    }

    /** stop() and join() on the current tailer, which is replaced by a fresh one. */
    method Retire(ghost last: Option<State>)
      requires tailer.host == host && Healthy(tailer.View())
      modifies this, tailer, host
      ensures tailer.host == host && fresh(tailer)
      ensures Snapshot(last, Listening) == Replace(StopCurrent(old(Snapshot(last, Listening))))
    {
      tailer.Stop();
      actions := actions + [Stop(id)];
      tailer.Join();
      retired := retired + [tailer.View()];
      actions := actions + [Join(id), Create(id + 1)];
      tailer := new Tailer(host, false);
      id := id + 1;
    }

    /** The announcement, then start() on the current tailer. */
    method StartTailer(ghost last: Option<State>)
      requires tailer.host == host && !tailer.started
      modifies this, tailer, host
      ensures tailer == old(tailer)
      ensures Snapshot(last, Listening) == Launch(old(Snapshot(last, Listening)))
    {
      if tailer.clearHistory {
        host.Log(ListenerTag, "Starting Logcat redirection and clearing history...");
      } else {
        host.Log(ListenerTag, "Resuming Logcat redirection without clearing history...");
      }
      tailer.Start();
      actions := actions + [Start(id)];
    }

    /** One pass of the event loop. */
    method Handle(e: Event, last: Option<State>) returns (last': Option<State>, outcome: Outcome)
      requires tailer.host == host && Healthy(tailer.View())
      modifies this, tailer, host
      ensures tailer.host == host && (tailer == old(tailer) || fresh(tailer))
      ensures Snapshot(last', outcome) == Step(old(Snapshot(last, Listening)), e)
    {
      last', outcome := last, Listening;
      match e
      case TailerEnded =>
        if tailer.alive {
          tailer.Exit();
        }
      case SpawnFailed =>
        if tailer.alive {
          tailer.Fail();
        }
      case Reported(s) =>
        if last == Some(s) || s == Invalid {
          return;
        }
        last' := Some(s);
        host.Log(ListenerTag, "Current process state: " + StateName(s));
        assert Snapshot(last', Listening) == Note(old(Snapshot(last, Listening)), s);
        outcome := Act(s, last');
    }

    /** The action for a new state, after it is logged. */
    method Act(s: State, ghost last: Option<State>) returns (outcome: Outcome)
      requires tailer.host == host && Healthy(tailer.View())
      modifies this, tailer, host
      ensures tailer.host == host && (tailer == old(tailer) || fresh(tailer))
      ensures Snapshot(last, outcome) == React(old(Snapshot(last, Listening)), s)
    {
      outcome := Listening;
      if s == Running {
        if !tailer.alive {
          if tailer.started {
            Retire(last);
          }
          StartTailer(last);
        }
      } else if s == Stopped || s == Crashed {
        if tailer.alive {
          host.Log(ListenerTag, "Pausing Logcat redirection...");
          Retire(last);
        }
      } else if s == Exited || s == Detached {
        host.Log(ListenerTag, "Process exited/detached. Cleaning up Logcat...");
        tailer.Stop();
        actions := actions + [Stop(id)];
        outcome := Finished;
      }
    }

    /** The second loop of `run`: act on each event until the process exits or detaches. */
    method Listen(events: seq<Event>) returns (last: Option<State>, outcome: Outcome)
      requires tailer.host == host && Inv(Snapshot(None, Listening))
      modifies this, tailer, host
      ensures Snapshot(last, outcome) == Supervise(old(Snapshot(None, Listening)), events)
    {
      ghost var start := Snapshot(None, Listening);
      last, outcome := None, Listening;
      var i := 0;
      while i < |events| && outcome == Listening
        invariant i <= |events|
        invariant tailer.host == host && (tailer == old(tailer) || fresh(tailer))
        invariant Snapshot(last, outcome) == Supervise(start, events[..i])
        invariant Inv(Snapshot(last, outcome))
      {
        assert events[..i + 1][..i] == events[..i];
        StepKeeps(Snapshot(last, outcome), events[i]);
        last, outcome := Handle(events[i], last);
        i := i + 1;
      }
      if i < |events| {
        assert events == events[..i] + events[i..];
        SuperviseAppend(start, events[..i], events[i..]);
        Settled(Supervise(start, events[..i]), events[i..]);
      } else {
        assert events[..i] == events;
      }
    }

    /**
      `run`: wait for a valid process, then follow its states. When no probe
      finds a process, the thread is still waiting.
     */
    method Run(probes: seq<Probe>, events: seq<Event>) returns (ready: bool, last: Option<State>, outcome: Outcome)
      requires tailer.host == host && Snapshot(None, Listening) == Initial(host.console, host.adb)
      modifies this, tailer, host
      ensures ready == FirstReady(probes).Some?
      ensures !ready ==>
        Snapshot(None, Listening) == old(Snapshot(None, Listening)).(console := old(host.console) + WaitLog(probes))
      ensures ready ==>
        Snapshot(last, outcome) == Supervise(Initial(old(host.console) + WaitLog(probes), old(host.adb)), events)
    {
      ready := AwaitProcess(probes);
      last, outcome := None, Listening;
      if ready {
        InitialInv(host.console, host.adb);
        last, outcome := Listen(events);
      }
    }
  }
}
