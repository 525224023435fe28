/** The OpenVPN process handle: its lifecycle flags, the command it spawns
    and the accumulation of the child's output (src/connection/openvpn.rs).
    Spawning and killing are outcomes supplied by the caller; each output
    stream is the sequence of lines its reader thread reads. */
module OpenVpn {
  import opened Wrappers
  import opened Connections

  /** An operating-system error as carried by Rust's `io::Error`; only its
      identity is modelled. */
  datatype IoError = IoError(code: int)

  /** A spawned child process; only its identity is modelled. */
  datatype Child = Child(pid: nat)

  /** `OpenVpnConnection`: the buffers are the contents of the two shared
      `Arc<Mutex<String>>` buffers. */
  datatype OpenVpnConnection = OpenVpnConnection(
    connected: bool,
    connection: Connection,
    stdoutBuffer: string,
    stderrBuffer: string,
    child: Option<Child>)

  /** A program and its arguments, as handed to `Command`. */
  datatype Invocation = Invocation(program: string, args: seq<string>)

  /** What the operating system does with a spawn request: either a child
      whose stdout and stderr deliver the given lines before closing, or an
      error. */
  datatype SpawnOutcome =
    | Spawned(child: Child, stdoutLines: seq<string>, stderrLines: seq<string>)
    | SpawnError(error: IoError)

  /** A handle after an operation, together with what the operation returned. */
  datatype Returned = Returned(handle: OpenVpnConnection, result: Outcome<IoError>)

  /** The lifecycle invariant: a connected handle holds its child. */
  predicate Consistent(h: OpenVpnConnection) {
    h.connected ==> h.child.Some?
  }

  /** `OpenVpnConnection::new`. */
  function New(connection: Connection): (h: OpenVpnConnection)
    ensures !h.connected && h.child == None
    ensures h.stdoutBuffer == "" && h.stderrBuffer == ""
    ensures h.connection == connection
    ensures Consistent(h)
  {
    OpenVpnConnection(false, connection, "", "", None)
  }

  const CommandPrefix: string := "$(which openvpn) --config "

  /** The shell command text that starts OpenVPN on a configuration file. */
  function CommandLine(path: string): (cmd: string)
    ensures |cmd| == |CommandPrefix| + |path|
    ensures cmd[..|CommandPrefix|] == CommandPrefix && cmd[|CommandPrefix|..] == path
  {
    CommandPrefix + path
  }

  /** Reads back the configuration path from a command text, if it has the
      shape `CommandLine` produces. */
  function ConfigPathOf(cmd: string): Option<string> {
    if |CommandPrefix| <= |cmd| && cmd[..|CommandPrefix|] == CommandPrefix
    then Some(cmd[|CommandPrefix|..])
    else None
  }

  /** The command text determines the path: distinct paths give distinct
      commands, and the path can be read back. */
  lemma CommandLineRoundTrip(path: string)
    ensures ConfigPathOf(CommandLine(path)) == Some(path)
  {
  }

  /** `sh -c <command>`: the invocation `connect` spawns for a profile. */
  function ShellInvocation(path: string): (inv: Invocation)
    ensures inv.program == "sh" && |inv.args| == 2 && inv.args[0] == "-c"
    ensures ConfigPathOf(inv.args[1]) == Some(path)
  {
    CommandLineRoundTrip(path);
    Invocation("sh", ["-c", CommandLine(path)])
  }

  /** The text a stream contributes to its buffer: each line followed by a
      newline, in read order. */
  function Joined(lines: seq<string>): string {
    if |lines| == 0 then ""
    else lines[0] + "\n" + Joined(lines[1..])
  }

  /** A reader thread's loop: one `push_str` of `line + "\n"` per line read. */
  function PushLines(buffer: string, lines: seq<string>): (r: string)
    ensures r == buffer + Joined(lines)
    decreases |lines|
  {
    if |lines| == 0 then buffer
    else PushLines(buffer + lines[0] + "\n", lines[1..])
  }

  /** `connect`: does nothing on a connected handle; otherwise spawns the
      shell command and, once both reader threads have drained their
      streams, stores the child and marks the handle connected. */
  function Connect(h: OpenVpnConnection, spawn: SpawnOutcome): (s: Returned)
    ensures h.connected ==> s == Returned(h, Pass)
    ensures !h.connected && spawn.SpawnError? ==> s == Returned(h, Fail(spawn.error))
    ensures !h.connected && spawn.Spawned? ==>
              && s.result == Pass
              && s.handle.connected
              && s.handle.child == Some(spawn.child)
              && s.handle.connection == h.connection
              && s.handle.stdoutBuffer == h.stdoutBuffer + Joined(spawn.stdoutLines)
              && s.handle.stderrBuffer == h.stderrBuffer + Joined(spawn.stderrLines)
    ensures s.handle.connection == h.connection
    ensures Consistent(h) ==> Consistent(s.handle)
  {
    if h.connected then Returned(h, Pass)
    else
      match spawn
      case SpawnError(e) => Returned(h, Fail(e))
      case Spawned(child, outLines, errLines) =>
        var out := PushLines(h.stdoutBuffer, outLines);
        var err := PushLines(h.stderrBuffer, errLines);
        Returned(h.(stdoutBuffer := out, stderrBuffer := err, child := Some(child), connected := true), Pass)
  }

  /** The process `connect` asks the operating system for, if any: none on a
      connected handle, otherwise `sh -c` with the profile's command text.
      `Connect` takes the spawn outcome as given; `SpawnRequestGuardsConnect`
      ties the two together. */
  function SpawnRequest(h: OpenVpnConnection): (req: Option<Invocation>)
    ensures h.connected <==> req.None?
    ensures req.Some? ==> req.value.program == "sh" && req.value.args == ["-c", CommandLine(h.connection.path)]
  {
    if h.connected then None else Some(ShellInvocation(h.connection.path))
  }

  /** `SpawnRequest` and `Connect` share one guard: with no request,
      `connect` returns `Ok` unchanged whatever the spawn outcome; with a
      request, the spawn outcome alone decides the result. */
  lemma SpawnRequestGuardsConnect(h: OpenVpnConnection, spawn: SpawnOutcome)
    ensures SpawnRequest(h).None? ==> Connect(h, spawn) == Returned(h, Pass)
    ensures SpawnRequest(h).Some? ==> (Connect(h, spawn).result == Pass <==> spawn.Spawned?)
    ensures SpawnRequest(h).Some? && spawn.SpawnError? ==> Connect(h, spawn).result == Fail(spawn.error)
  {
  }

  /** `stop`: does nothing on a handle that is not connected; otherwise kills
      the child if there is one. `kill` is what killing the child returns. */
  function Stop(h: OpenVpnConnection, kill: Outcome<IoError>): (s: Returned)
    ensures s.handle.stdoutBuffer == h.stdoutBuffer && s.handle.stderrBuffer == h.stderrBuffer
    ensures s.handle.child == h.child && s.handle.connection == h.connection
    ensures !h.connected ==> s == Returned(h, Pass)
    ensures h.connected && h.child.None? ==> s == Returned(h, Pass)
    ensures h.connected && h.child.Some? && kill.Pass? ==> s.result == Pass && !s.handle.connected
    ensures h.connected && h.child.Some? && kill.Fail? ==> s == Returned(h, kill)
    ensures Consistent(h) ==> Consistent(s.handle)
  {
    if !h.connected then Returned(h, Pass)
    else
      match h.child
      case Some(_) =>
        if kill.Fail? then Returned(h, kill)
        else Returned(h.(connected := false), Pass)
      case None => Returned(h, Pass)
  }

  /** Connecting an already connected handle changes nothing, so a second
      `connect` after a successful one is a no-op whatever the OS would do. */
  lemma ConnectIdempotent(h: OpenVpnConnection, first: SpawnOutcome, second: SpawnOutcome)
    requires Connect(h, first).result == Pass
    ensures Connect(Connect(h, first).handle, second) == Returned(Connect(h, first).handle, Pass)
  {
  }

  /** Each buffer is fed only by its own stream: what the other stream
      delivers never reaches it. */
  lemma StreamsIndependent(h: OpenVpnConnection, c: Child, out1: seq<string>, out2: seq<string>,
                           err1: seq<string>, err2: seq<string>)
    ensures Connect(h, Spawned(c, out1, err1)).handle.stderrBuffer
         == Connect(h, Spawned(c, out2, err1)).handle.stderrBuffer
    ensures Connect(h, Spawned(c, out1, err1)).handle.stdoutBuffer
         == Connect(h, Spawned(c, out1, err2)).handle.stdoutBuffer
  {
  }

  /** The position of the first newline of `s`, or `|s|` if there is none. */
  function NewlineIndex(s: string): (k: nat)
    ensures k <= |s|
    ensures forall j :: 0 <= j < k ==> s[j] != '\n'
    ensures k < |s| ==> s[k] == '\n'
  {
    if |s| == 0 || s[0] == '\n' then 0
    else 1 + NewlineIndex(s[1..])
  }

  /** Splits a buffer back into the lines it holds; a trailing fragment
      without a newline counts as a line. */
  function LinesOf(s: string): seq<string>
    decreases |s|
  {
    if |s| == 0 then []
    else
      var k := NewlineIndex(s);
      if k == |s| then [s] else [s[..k]] + LinesOf(s[k + 1..])
  }

  /** A line as a reader delivers it: without its line terminator. */
  predicate IsLine(line: string) {
    '\n' !in line
  }

  lemma NewlineIndexAfterLine(line: string, rest: string)
    requires IsLine(line)
    ensures NewlineIndex(line + "\n" + rest) == |line|
  {
    var s := line + "\n" + rest;
    var k := NewlineIndex(s);
    assert s[|line|] == '\n';
  }

  /** The buffer format keeps line boundaries: splitting the text a stream
      appended gives back exactly the lines read. */
  lemma {:induction false} LinesOfJoined(lines: seq<string>)
    requires forall i :: 0 <= i < |lines| ==> IsLine(lines[i])
    ensures LinesOf(Joined(lines)) == lines
  {
    if |lines| > 0 {
      var line := lines[0];
      var rest := Joined(lines[1..]);
      var s := Joined(lines);
      assert s == line + "\n" + rest;
      NewlineIndexAfterLine(line, rest);
      assert s[..|line|] == line;
      assert s[|line| + 1..] == rest;
      LinesOfJoined(lines[1..]);
    }
  }

  /** A successful `connect` only appends to the buffers, and the appended
      text splits back into exactly the lines of the matching stream. */
  lemma ConnectAppendsLines(h: OpenVpnConnection, c: Child, out: seq<string>, err: seq<string>)
    requires !h.connected
    requires forall i :: 0 <= i < |out| ==> IsLine(out[i])
    requires forall i :: 0 <= i < |err| ==> IsLine(err[i])
    ensures var h' := Connect(h, Spawned(c, out, err)).handle;
            && |h.stdoutBuffer| <= |h'.stdoutBuffer|
            && h'.stdoutBuffer[..|h.stdoutBuffer|] == h.stdoutBuffer
            && LinesOf(h'.stdoutBuffer[|h.stdoutBuffer|..]) == out
            && |h.stderrBuffer| <= |h'.stderrBuffer|
            && h'.stderrBuffer[..|h.stderrBuffer|] == h.stderrBuffer
            && LinesOf(h'.stderrBuffer[|h.stderrBuffer|..]) == err
  {
    var h' := Connect(h, Spawned(c, out, err)).handle;
    assert h'.stdoutBuffer[|h.stdoutBuffer|..] == Joined(out);
    assert h'.stderrBuffer[|h.stderrBuffer|..] == Joined(err);
    LinesOfJoined(out);
    LinesOfJoined(err);
  }

  /** An operation the owner of a handle can perform. */
  datatype Op = DoConnect(spawn: SpawnOutcome) | DoStop(kill: Outcome<IoError>)

  /** The handle after a sequence of operations, ignoring their results. */
  function Replay(h: OpenVpnConnection, ops: seq<Op>): OpenVpnConnection
    decreases |ops|
  {
    if |ops| == 0 then h
    else
      var next := match ops[0]
        case DoConnect(spawn) => Connect(h, spawn).handle
        case DoStop(kill) => Stop(h, kill).handle;
      Replay(next, ops[1..])
  }

  /** Over any lifetime the handle stays consistent, keeps its profile, and
      its buffers only grow. */
  lemma {:induction false} ReplayPreserves(h: OpenVpnConnection, ops: seq<Op>)
    requires Consistent(h)
    ensures var h' := Replay(h, ops);
            && Consistent(h')
            && h'.connection == h.connection
            && |h.stdoutBuffer| <= |h'.stdoutBuffer| && h'.stdoutBuffer[..|h.stdoutBuffer|] == h.stdoutBuffer
            && |h.stderrBuffer| <= |h'.stderrBuffer| && h'.stderrBuffer[..|h.stderrBuffer|] == h.stderrBuffer
    decreases |ops|
  {
    if |ops| > 0 {
      var next := match ops[0]
        case DoConnect(spawn) => Connect(h, spawn).handle
        case DoStop(kill) => Stop(h, kill).handle;
      assert next.stdoutBuffer[..|h.stdoutBuffer|] == h.stdoutBuffer;
      assert next.stderrBuffer[..|h.stderrBuffer|] == h.stderrBuffer;
      ReplayPreserves(next, ops[1..]);
      var h' := Replay(h, ops);
      assert h' == Replay(next, ops[1..]);
      assert h'.stdoutBuffer[..|h.stdoutBuffer|] == h'.stdoutBuffer[..|next.stdoutBuffer|][..|h.stdoutBuffer|];
      assert h'.stderrBuffer[..|h.stderrBuffer|] == h'.stderrBuffer[..|next.stderrBuffer|][..|h.stderrBuffer|];
    }
  }

  /** On a consistent handle `stop` always reaches the child: a successful
      kill disconnects, after which `connect` spawns anew. */
  lemma StopThenReconnect(h: OpenVpnConnection, c: Child, out: seq<string>, err: seq<string>)
    requires Consistent(h) && h.connected
    ensures var stopped := Stop(h, Pass).handle;
            && !stopped.connected
            && SpawnRequest(stopped) == Some(ShellInvocation(h.connection.path))
            && Connect(stopped, Spawned(c, out, err)).handle.child == Some(c)
  {
  }
}
