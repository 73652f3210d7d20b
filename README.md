# logcat-to-lldb-logging, modelled in Dafny

This project models the two threads of the lldb plugin that redirect an
Android emulator's `adb logcat` output into the debugger console:

- **The logcat tailer** (`AndroidEmulatorObserverThread`). It optionally
  clears the logcat history, then spawns `adb logcat` and reads it line by
  line. It waits for a line that reveals the application's bundle id. That
  id is found by searching for `[a-zA-Z0-9_.]*\.<process name, lowercased>`.
  The tailer announces the id and builds the log pattern
  `.+([A-Z])\s+<bundle>(\.([^\s]+)?)?:\s(.+)$` from it. From then on it
  renders every matching line (robot, level icon, tag, stripped message)
  to the console.
- **The session listener** (`DebugSessionListeningThread`). It waits until
  the debugger has a valid process, then reacts to each new process state:
  - Running starts the tailer if it is not alive.
  - Stopped or Crashed stops, joins and replaces an alive tailer.
  - Exited or Detached stops the tailer and ends the loop.
  - A repeated or invalid state is skipped.

Files:

- `wrappers.dfy` and `sequences.dfy`: the optional value and a few facts
  about sequences used by the proofs.
- `text.dfy`: Python's `str.isspace`, `strip`, ASCII `lower`, and literal
  matching in which `.` is a wildcard.
- `environment.dfy`: the console (`ActiveSessionLogger` lines `[tag] message`
  and redirected lines) and the record of `adb` invocations.
- `logline.dfy`: the per-line work. It holds the icon table and a
  hand-written model of both regular expressions. Each search is proved
  against a reference predicate that states which match Python's
  backtracking engine picks. The file also holds the rendering and a parser
  for rendered lines.
- `logcat.dfy`:
  - the tailer's output as a function of the lines read (`Scan`,
    `ScanAll`, `FollowOutput`);
  - the `Tailer` class, whose read loop is proved against those functions.
- `supervisor.dfy`:
  - the listener as a fold over events (`Step`, `Supervise`), with its
    invariant;
  - the behaviour as written versus corrected (see Findings);
  - the `Listener` class, whose methods are proved against `Step` and
    `Supervise`.

Where the code and its written description differ, the model follows the
code, with one exception. The listener's reaction to Running on a tailer
that has already run and ended raises `RuntimeError` in the code. The
functions `Step` and `Supervise`, and the `Listener` class, implement the
corrected reaction instead. The code as written is `StepAsWritten` and
`SuperviseAsWritten`, and its own guarantees are proved about them too
(see Findings).

## Model

| member | source | states |
|---|---|---|
| Text.Lower | utils/AndroidEmulatorObserverThread.py:49 | the lowercased name has the same length; each ASCII capital becomes its small letter and every other character is kept |
| Text.Strip | utils/AndroidEmulatorObserverThread.py:73 | the stripped message is a contiguous slice of the message; only whitespace lies outside it, and it neither starts nor ends with whitespace |
| LogLine.Icon | utils/AndroidEmulatorObserverThread.py:40-46 | the icon table with its "log" default, as a function; its properties are stated by LogLine.IconTable |
| LogLine.IconTable | utils/AndroidEmulatorObserverThread.py:40-46 | E, W, I, D and V each map to their own icon, and the icon identifies the level back; every other level letter renders as "log" |
| LogLine.Render | utils/AndroidEmulatorObserverThread.py:72-73 | with a tag: the robot, the icon, `[tag]`, a tab and the stripped message; without one: the robot, a tab, the icon, a tab and the stripped message; its inverse is LogLine.Unrender, proved by LogLine.RenderRoundTrip |
| LogLine.RenderRoundTrip | utils/AndroidEmulatorObserverThread.py:72-73 | a rendered line can be parsed back into its icon, its tag (present exactly when the source had one) and the stripped message, for both layouts of line 73 |
| LogLine.SearchFrom | utils/AndroidEmulatorObserverThread.py:51 | the discovery search from a position returns the leftmost start at which the pattern matches, with the longest match there; None means no match starts at or after the position |
| LogLine.FindBundleId | utils/AndroidEmulatorObserverThread.py:51-62 | the `re.search` of the discovery pattern, returning group 1; what it finds is stated by LogLine.FindBundleIdSpec |
| LogLine.FindBundleIdSpec | utils/AndroidEmulatorObserverThread.py:59-62 | a bundle id is found exactly when the discovery pattern matches somewhere; the id found is the text of the leftmost, longest match |
| LogLine.LineEnd | utils/AndroidEmulatorObserverThread.py:64 | `$` matches at the end of the line, or just before one final newline |
| LogLine.MatchLog | utils/AndroidEmulatorObserverThread.py:64 | the log pattern matches exactly when some parse of the line is valid; the parse chosen precedes every other valid parse in backtracking order |
| LogLine.RecordOf | utils/AndroidEmulatorObserverThread.py:71 | a match gives an upper-case level, an optional non-empty tag without whitespace, and a non-empty message without newline |
| LogLine.ParseLine | utils/AndroidEmulatorObserverThread.py:64-71 | the `re.match` of the log pattern, returning the level, the tag and the message; what it returns is stated by LogLine.ParseLineSpec |
| LogLine.ParseLineSpec | utils/AndroidEmulatorObserverThread.py:69-71 | a line yields a record exactly when the log pattern matches it; the record comes from the parse Python's engine picks |
| Logcat.Scan | utils/AndroidEmulatorObserverThread.py:57-74 | one pass of the loop body: until the pattern is built, a revealing line builds it, is announced and is itself parsed, and any other line is skipped; afterwards a line is rendered if it matches. Its properties over many lines are stated by Logcat.ScanAllPhases and Logcat.AnnouncedOnce |
| Logcat.ScanAll | utils/AndroidEmulatorObserverThread.py:53-74 | the loop body over the lines in order; Logcat.ScanAllPhases proves it equal to the two-phase reference Logcat.Phases |
| Logcat.FollowOutput | utils/AndroidEmulatorObserverThread.py:53-77 | what the read loop writes: ScanAll over the processed lines, then the error line if the loop stopped at a failed read; Logcat.Tailer.ReadLoop is proved against it |
| Logcat.FirstReveal | utils/AndroidEmulatorObserverThread.py:57-66 | it returns the first line that reveals the bundle id; no earlier line reveals it, and None means no line does |
| Logcat.ScanAllPhases | utils/AndroidEmulatorObserverThread.py:57-74 | the loop writes nothing before the first revealing line, then the announcement, then the rendering of that line and of each later matching line |
| Logcat.ScanAllBuilt | utils/AndroidEmulatorObserverThread.py:68-74 | once the pattern is built, the bundle id is kept and each line contributes its rendering if it matches, in order |
| Logcat.ForwardedAreRendered | utils/AndroidEmulatorObserverThread.py:73-74 | every redirected line is a rendered log line, starting with the robot |
| Logcat.AnnouncedOnce | utils/AndroidEmulatorObserverThread.py:63 | every console line of the filter but the first is a redirected log line, and the first is the announcement exactly when some line revealed the bundle id, so it is announced at most once |
| Logcat.Processed | utils/AndroidEmulatorObserverThread.py:53-55 | the loop handles reads up to, and not including, the first end of stream, failed read or cleared running flag |
| Logcat.StopIdempotent | utils/AndroidEmulatorObserverThread.py:79-85 | a second `stop()` changes nothing, logs nothing and terminates nothing; afterwards the tailer holds no process |
| Logcat.StartIsSpawnedRun | utils/AndroidEmulatorObserverThread.py:17-22 | starting a tailer is its thread body with a successful spawn; `adb logcat -c` runs before `adb logcat` exactly when history is to be cleared |
| Logcat.Tailer.constructor | utils/AndroidEmulatorObserverThread.py:9-15 | a new tailer holds no process, is not running, and its thread is not started |
| Logcat.Tailer.Stop | utils/AndroidEmulatorObserverThread.py:79-85 | only a tailer holding a process is affected: it is terminated, its running flag is cleared, and "Logcat stopped." is logged |
| Logcat.Tailer.Start | utils/AndroidEmulatorObserverThread.py:17-34 | the thread is started and alive, holds a running process, and the `adb` calls are the clear (when asked) followed by `adb logcat` |
| Logcat.Tailer.Exit | utils/AndroidEmulatorObserverThread.py:53-55 | when the read loop ends, only the thread's liveness changes |
| Logcat.Tailer.Fail | utils/AndroidEmulatorObserverThread.py:76-77 | when the thread dies of a spawn error, it holds no process and is not running |
| Logcat.Tailer.Join | utils/DebugSessionListeningThread.py:68 | joining a tailer whose running flag is cleared leaves it not alive, with no other change |
| Logcat.Tailer.Handle | utils/AndroidEmulatorObserverThread.py:57-74 | one loop pass writes exactly what `Scan` specifies for the line and keeps the bundle id `Scan` returns |
| Logcat.Tailer.Consume | utils/AndroidEmulatorObserverThread.py:57-74 | one pass of the loop over a read line: the console gains exactly what ScanAll adds for that line, and the bundle id becomes ScanAll's |
| Logcat.Tailer.ReadLoop | utils/AndroidEmulatorObserverThread.py:53-77 | the console gains exactly the filter's output for the processed lines, plus the error line if a read failed; the thread stays alive only if no read stopped the loop |
| Logcat.Tailer.Finish | utils/AndroidEmulatorObserverThread.py:76-77 | the loop's exit adds the "Logcat error" line exactly when it stopped at a failed read |
| Logcat.Tailer.Run | utils/AndroidEmulatorObserverThread.py:17-77 | the whole thread body: the `adb` calls run, the console lines and the tailer's final state. When the clear it was asked for cannot be run, the uncaught exception ends the thread with nothing logged and nothing spawned. Otherwise an error line is logged if spawning failed, or else the read loop's output is |
| Logcat.ClearFailureSilent | utils/AndroidEmulatorObserverThread.py:19-26 | a clear that cannot be run changes nothing for a tailer not asked to clear; a tailer asked to clear then ends with no console line, no `adb` call and no process |
| Supervisor.FirstReady | utils/DebugSessionListeningThread.py:31-37 | it returns the first probe with a target whose process is valid, and None when no probe has one |
| Supervisor.Listener.AwaitProcess | utils/DebugSessionListeningThread.py:31-43 | the wait ends exactly when some probe is ready; it logs "Waiting for debugger!..." once for each probe before the first ready one, then "Listening debugger events started." |
| Supervisor.React | utils/DebugSessionListeningThread.py:56-75 | the corrected action for a new state; RunningStarts, PauseReplaces, ExitEnds and OtherStatesLog state it case by case |
| Supervisor.Step | utils/DebugSessionListeningThread.py:46-75 | one event of the corrected loop (see Findings): repeated and invalid states are skipped, and a new state is logged and reacted to; a tailer's own ending is recorded. Its invariant is Supervisor.StepKeeps |
| Supervisor.Supervise | utils/DebugSessionListeningThread.py:44-75 | the corrected loop over the events in order; Supervisor.SuperviseKeeps and Supervisor.Supervised state what it keeps |
| Supervisor.StepAsWritten | utils/DebugSessionListeningThread.py:46-75 | one event as the code is written: as Step, except that Running on a tailer that has run and ended logs the state and the announcement and then raises; Supervisor.RunningAsWritten states it |
| Supervisor.SuperviseAsWritten | utils/DebugSessionListeningThread.py:44-75 | the loop as the code is written, over the events in order; Supervisor.SupervisedAsWritten states what it keeps |
| Supervisor.IgnoredStates | utils/DebugSessionListeningThread.py:47-50 | a repeated or invalid state changes nothing |
| Supervisor.StepTwice | utils/DebugSessionListeningThread.py:46-52 | reporting the same state twice in a row has the effect of reporting it once |
| Supervisor.Coalesced | utils/DebugSessionListeningThread.py:46-54 | any run of one or more reports of the same state has the effect of one report |
| Supervisor.RunningStarts | utils/DebugSessionListeningThread.py:52-62 | in the corrected loop, on a new Running state the state line is logged once and a tailer is alive afterwards. An alive tailer is left alone. Otherwise the whole next state is stated: the console gains the state line, "Logcat stopped." if a used tailer still held a process, and the resume announcement. The `adb` record gains its terminate call and `adb logcat`. The tailer number, the replaced tailers and the exact calls on tailers are given too; a tailer that already ran is first stopped, joined and replaced |
| Supervisor.PauseReplaces | utils/DebugSessionListeningThread.py:64-70 | on a new Stopped or Crashed state, an alive tailer is stopped, joined and replaced by a fresh unstarted one, with the exact console lines and `adb` calls; a tailer that is not alive is left as it is |
| Supervisor.ExitEnds | utils/DebugSessionListeningThread.py:72-75 | on a new Exited or Detached state, the state is recorded, the tailer is stopped (its console line and `adb` call given exactly), the cleanup is logged, and no later event is acted on |
| Supervisor.OtherStatesLog | utils/DebugSessionListeningThread.py:52-54 | any other new state is only recorded and logged |
| Supervisor.StepKeeps | utils/DebugSessionListeningThread.py:46-75 | every event preserves the invariant: no tailer is started twice, replaced tailers are dead, and an alive tailer holds a running process |
| Supervisor.Supervised | utils/DebugSessionListeningThread.py:44-75 | after any sequence of events, no tailer was started twice, every replaced tailer is dead with no process, and an alive current tailer holds a running process |
| Supervisor.HistoryKept | utils/DebugSessionListeningThread.py:12-70 | no tailer the listener builds has clear_history set, so the clearing announcement is never logged and no clear runs before tailing |
| Supervisor.PauseAndResume | utils/DebugSessionListeningThread.py:56-70 | Running, Running, Stopped, Running starts tailer 0, stops, joins and replaces it, then starts tailer 1 |
| Supervisor.AgreeUntilRestart | utils/DebugSessionListeningThread.py:56-62 | the code as written and the corrected loop agree on every event sequence in which no ended tailer is restarted |
| Supervisor.RunningAsWritten | utils/DebugSessionListeningThread.py:56-62 | as written, a new Running state acts as in the corrected loop unless the tailer has run and ended; then the state and the announcement are logged, no tailer is started or replaced, and the loop dies |
| Supervisor.StepAsWrittenKeeps | utils/DebugSessionListeningThread.py:46-75 | every event of the code as written preserves the same invariant as the corrected loop |
| Supervisor.SuperviseAsWrittenKeeps | utils/DebugSessionListeningThread.py:44-75 | the invariant holds after any sequence of events of the code as written |
| Supervisor.SupervisedAsWritten | utils/DebugSessionListeningThread.py:44-75 | as written, no tailer is started twice, every replaced tailer is dead with no process, and an alive current tailer holds a running process |
| Supervisor.StepTwiceAsWritten | utils/DebugSessionListeningThread.py:46-52 | as written, reporting the same state twice in a row acts once |
| Supervisor.CoalescedAsWritten | utils/DebugSessionListeningThread.py:46-54 | as written, any run of one or more reports of the same state acts as one report |
| Supervisor.RestartRaises | utils/DebugSessionListeningThread.py:56-62 | the finding's counterexample: as written, the listener dies; corrected, it keeps listening with a fresh tailer alive |
| Supervisor.RunningResumes | utils/DebugSessionListeningThread.py:56-62 | in the corrected loop, every new Running state leaves a tailer alive and the loop listening, and no tailer was started twice |
| Supervisor.EndedIsRun | utils/AndroidEmulatorObserverThread.py:53-55 | a tailer that ended on its own (`TailerEnded`) is the thread body whose read loop stopped |
| Supervisor.FailedIsRun | utils/AndroidEmulatorObserverThread.py:32-34 | a tailer that died on spawning (`SpawnFailed`) is the thread body whose spawn raised |
| Supervisor.Listener.constructor | utils/DebugSessionListeningThread.py:8-13 | a new listener holds a fresh tailer that does not clear the history, on the same console |
| Supervisor.Listener.Retire | utils/DebugSessionListeningThread.py:65-70 | the current tailer is stopped, joined and replaced by a fresh tailer |
| Supervisor.Listener.StartTailer | utils/DebugSessionListeningThread.py:57-62 | the announcement (resume, or start with clearing when the tailer clears history) is logged and the tailer is started |
| Supervisor.Listener.Act | utils/DebugSessionListeningThread.py:56-75 | the action taken for a new state is the one `React` specifies |
| Supervisor.Listener.Handle | utils/DebugSessionListeningThread.py:46-54 | one event changes the listener exactly as `Step` specifies |
| Supervisor.Listener.Listen | utils/DebugSessionListeningThread.py:44-75 | the event loop over a sequence of events ends in the state `Supervise` specifies |
| Supervisor.Listener.Run | utils/DebugSessionListeningThread.py:26-75 | the thread body: it waits until a probe is ready, logging each wait, then runs the event loop as `Supervise` specifies |

## Left out

- lldb's API is not modelled. `GetNumTargets`, `GetProcess` and `IsValid` are inputs (a sequence of probes). `GetState` and `wait_for_next_event` are inputs too (a sequence of events), including that method's listener set-up and its 5-second timeouts.
- Threads, the condition variable and its 0.5-second wait are not modelled. `join()` returns at once. The tailer's redirected lines are not interleaved with the listener's lines in the listener model. Within one read loop, the running flag keeps the value it had when the loop began.
- The subprocesses are not modelled. Running `adb` is recorded as a call (`ClearHistory`, `Follow`, `Terminate`), and the hard-coded `adb` path is dropped. The text of `adb logcat` is a sequence of reads. The message of a failed spawn or a failed read is a parameter.
- `ActiveSessionLogger`'s terminal lookup and its shell echo are not modelled. Its output is the console line `[tag] message`.
- Python's regular-expression engine is not modelled in general. Only the two patterns of the tailer are modelled. In the process name and the bundle id, `.` is a wildcard, and no other regular-expression metacharacter is handled. `lower()` lowers ASCII only.
- The `process.stdout is None` branch (utils/AndroidEmulatorObserverThread.py:36-38) is not modelled. It cannot happen with `stdout=PIPE`.
- The `__del__` finalizers of both threads are not modelled. Line 69 of utils/DebugSessionListeningThread.py drops the last reference to a replaced tailer, so under CPython's reference counting that tailer's finalizer runs there on every pause. It calls `stop()`, runs `adb logcat -c` and logs "Cleanup complete.". That clear and that line are missing from the listener's records.
- lldb_logcat.py, which only creates and starts the listener, is not part of this model.
- Logcat.Tailer.Start: describes `start()` as seen by the listener. The clear, when asked for, succeeds, and `adb logcat` is spawned and waiting for output. A tailer that ends later, or never spawns, is given by the `TailerEnded` and `SpawnFailed` events. `Logcat.Tailer.Run` is the full thread body.
- Supervisor.RunningStarts: states the corrected reaction to Running. For a tailer that has run and ended, the code as written raises instead, which `Supervisor.RunningAsWritten` states.
- Supervisor.Listener.Act: implements the corrected reaction to Running. The as-written reaction is modelled only as the function `Supervisor.StepAsWritten` (see Findings).
- Supervisor.Listener.Listen: follows the corrected loop (`Supervise`). When Running is reported on a tailer that has run and ended, the source raises `RuntimeError` at line 62 instead (`SuperviseAsWritten`).
- Supervisor.Listener.Run: its event loop is the corrected one, as for `Supervisor.Listener.Listen`. Also, when no probe is ready, the model stops after the probes given. The source keeps waiting.

## Findings

| source | as written | input that shows it | evidently intended | confidence | as-written member | corrected member |
|---|---|---|---|---|---|---|
| utils/DebugSessionListeningThread.py:56-62 | on Running, `start()` is called on the current tailer whenever it is not alive, also when its thread already ran and ended; a thread can be started once, so `start()` raises `RuntimeError` and the listener dies | Running, the tailer's read loop ends (`TailerEnded`), Stopped (the tailer is not alive, so it is not replaced), Running | a tailer that already ran is replaced by a fresh one before starting, as lines 64-70 do for an alive tailer, so logcat redirection resumes | not executed | Supervisor.StepAsWritten (shown by Supervisor.RestartRaises) | Supervisor.Step (proved by Supervisor.RunningResumes and Supervisor.StepKeeps) |
