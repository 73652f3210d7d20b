/**
  What the two threads do to the outside world, recorded in order: the lines
  written to the debugger's console (the session logger's `log` and
  `redirect`) and the `adb` commands run on the device.
 */
module Environment {

  /** An invocation of `adb`: `adb logcat -c`, `adb logcat`, or terminating the latter. */
  datatype AdbCall = ClearHistory | Follow | Terminate

  /** The console line `log` writes for a logger tagged `tag`. */
  function Tagged(tag: string, message: string): (r: string)
    ensures |r| == |tag| + 3 + |message| && r[0] == '['
    ensures r[..|tag| + 3] == "[" + tag + "] " && r[|tag| + 3..] == message
  {
    "[" + tag + "] " + message
  }

  class Host {
    var console: seq<string>
    var adb: seq<AdbCall>

    constructor ()
      ensures console == [] && adb == []
    {
      console := [];
      adb := [];
    }

    /** The logger's `log`: the message prefixed with the logger's tag. */
    method Log(tag: string, message: string)
      modifies this
      ensures console == old(console) + [Tagged(tag, message)]
      ensures adb == old(adb)
    {
      console := console + [Tagged(tag, message)];
    }

    /** The logger's `redirect`: the line as it is. */
    method Redirect(line: string)
      modifies this
      ensures console == old(console) + [line]
      ensures adb == old(adb)
    {
      console := console + [line];
    }

    method Run(call: AdbCall)
      modifies this
      ensures adb == old(adb) + [call]
      ensures console == old(console)
    {
      adb := adb + [call];
    }
  }
}
