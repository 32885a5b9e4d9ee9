/**
  The interactive shell session (`TermuxInteractiveSession`): a shell started
  on a pseudo-terminal, commands written to it, output read back in chunks and
  cleaned, and the shell stopped again.

  The operating system is not modelled: every call whose result the session
  depends on (opening the terminal, starting the shell, `select`/`read`,
  `write`) is given as an outcome parameter, and every call the session makes
  towards the outside is appended to the `effects` trace, in order.
 */
module Session {
  import opened Wrappers
  import opened Sanitizer
  import opened Runtime

  // ---------------------------------------------------------------------------
  // Outcomes of the operating system and effects of the session
  // ---------------------------------------------------------------------------

  /** What one pass of the read loop observes. */
  datatype ReadOutcome =
    | Data(text: string)  // readable, and the read returned bytes (already decoded)
    | Eof                 // readable, but the read returned no bytes
    | NotReady            // `select` timed out
    | WouldBlock          // the read failed with EAGAIN
    | Failed              // the read failed otherwise, or `select` raised

  /** How the start of the shell went. */
  datatype SpawnOutcome =
    | PtyFailed                   // `openpty` raised: nothing was set
    | SetupFailed(fd: nat)        // the terminal was opened, then a later step raised
    | Spawned(fd: nat, pid: nat)  // the shell runs on the terminal `fd`

  /** Everything `connect` needs from the outside: the start of the shell and
      what the warm-up read observes. */
  datatype ConnectScript = ConnectScript(spawn: SpawnOutcome, warmup: seq<ReadOutcome>)

  /** Everything `send_command` needs from the outside. */
  datatype SendScript = SendScript(
    connect: ConnectScript,   // used when the session is not yet connected
    firstWriteOk: bool,
    reconnect: ConnectScript, // used after the first write failed
    secondWriteOk: bool)

  datatype Signal = SIGTERM | SIGKILL

  /** The calls the session makes; `Kill(pid, sig)` signals the process
      group of `pid`. */
  datatype Effect =
    | Spawn(argv: seq<string>, dir: string, env: Environ)
    | Write(fd: nat, data: string)
    | Kill(pid: nat, sig: Signal)
    | CloseFd(fd: nat)

  datatype Error = PtyError | SetupError | WriteError

  datatype Status = Ok | Raised(error: Error)

  // ---------------------------------------------------------------------------
  // The shell's environment and the command line
  // ---------------------------------------------------------------------------

  /** The variables `_get_env` overwrites. */
  const ShellOverrides: Environ :=
    map["TERM" := "xterm-256color", "COLORTERM" := "truecolor",
        "PS1" := "agent0@termux:\\w$ ", "PS2" := "> ",
        "HISTFILE" := "", "HISTSIZE" := "0", "HISTFILESIZE" := "0",
        "LANG" := "en_US.UTF-8", "LC_ALL" := "en_US.UTF-8",
        "TERMUX_MODE" := "true"]

  /** `_get_env`: a copy of the process environment with the shell's
      terminal, prompt, history and locale settings forced. */
  function GetEnv(env: Environ): Environ {
    env + ShellOverrides
  }

  /** The forced variables have their forced values whatever the process
      environment holds; every other variable is passed on as it is. */
  lemma GetEnvOverrides(env: Environ)
    ensures forall k :: k in ShellOverrides ==> k in GetEnv(env) && GetEnv(env)[k] == ShellOverrides[k]
    ensures forall k :: k !in ShellOverrides ==> (k in GetEnv(env) <==> k in env)
    ensures forall k :: k in env && k !in ShellOverrides ==> GetEnv(env)[k] == env[k]
  {
  }

  /** Preparing the shell's environment twice gives the same environment. */
  lemma GetEnvIdempotent(env: Environ)
    ensures GetEnv(GetEnv(env)) == GetEnv(env)
  {
    assert GetEnv(env) + ShellOverrides == GetEnv(env) by {
      Runtime.OverAbsorbed(GetEnv(env), ShellOverrides);
    }
  }

  /** The shell sees the same home as the session. Started from the patched
      process environment, it sees every patched variable it does not force
      itself, and so finds the Termux libraries on its `LD_LIBRARY_PATH`. */
  lemma GetEnvAgreesWithRuntime(env: Environ, host: Host)
    requires IsTermux(host)
    ensures GetTermuxHome(GetEnv(env)) == GetTermuxHome(env)
    ensures forall k :: k !in ShellOverrides ==>
              (k in GetEnv(Patched(env, host)) <==> k in Patched(env, host))
    ensures forall k :: k in Patched(env, host) && k !in ShellOverrides ==>
              GetEnv(Patched(env, host))[k] == Patched(env, host)[k]
    ensures LdKey in GetEnv(Patched(env, host))
    ensures Contains(GetEnv(Patched(env, host))[LdKey], LibPath(env))
  {
    assert "HOME" !in ShellOverrides;
    assert LdKey !in ShellOverrides;
    GetEnvOverrides(Patched(env, host));
    PatchedLdLibraryPath(env, host);
  }

  /** The text `send_command` writes: the command, with a newline added unless
      it already ends in one. */
  function CommandLine(command: string): (line: string)
    ensures EndsWith(line, "\n")
    ensures command <= line && |line| <= |command| + 1
    ensures EndsWith(command, "\n") ==> line == command
  {
    if EndsWith(command, "\n") then command else command + "\n"
  }

  lemma CommandLineIdempotent(command: string)
    ensures CommandLine(CommandLine(command)) == CommandLine(command)
  {
  }

  // ---------------------------------------------------------------------------
  // What the read loop collects
  // ---------------------------------------------------------------------------

  /** The cleaned text of the data the read loop receives, up to the first
      failure. */
  function Collected(outcomes: seq<ReadOutcome>): string {
    if outcomes == [] then ""
    else match outcomes[0]
      case Data(text) => Clean(text) + Collected(outcomes[1..])
      case Failed => ""
      case _ => Collected(outcomes[1..])
  }

  lemma AllVisibleConcat(a: string, b: string)
    requires AllVisible(a) && AllVisible(b)
    ensures AllVisible(a + b)
  {
    forall i | 0 <= i < |a + b| ensures IsVisible((a + b)[i]) {
      if i < |a| { assert (a + b)[i] == a[i]; } else { assert (a + b)[i] == b[i - |a|]; }
    }
  }

  /** Collected output holds only printable characters, LF and TAB. */
  lemma {:induction false} CollectedVisible(outcomes: seq<ReadOutcome>)
    ensures AllVisible(Collected(outcomes))
  {
    if outcomes != [] {
      CollectedVisible(outcomes[1..]);
      match outcomes[0]
      case Data(text) =>
        CleanAlphabet(text);
        AllVisibleConcat(Clean(text), Collected(outcomes[1..]));
      case _ =>
    }
  }

  /** Nothing observed after a failure is collected. */
  lemma {:induction false} CollectedStopsAtFailure(before: seq<ReadOutcome>, after: seq<ReadOutcome>)
    ensures Collected(before + [Failed] + after) == Collected(before)
  {
    if before == [] {
      assert before + [Failed] + after == [Failed] + after;
    } else {
      assert (before + [Failed] + after)[1..] == before[1..] + [Failed] + after;
      CollectedStopsAtFailure(before[1..], after);
    }
  }

  /** Without a failure in between, two stretches of reading collect one
      after the other. */
  lemma {:induction false} CollectedAppend(a: seq<ReadOutcome>, b: seq<ReadOutcome>)
    requires Failed !in a
    ensures Collected(a + b) == Collected(a) + Collected(b)
  {
    if a == [] {
      assert a + b == b;
    } else {
      assert (a + b)[1..] == a[1..] + b;
      CollectedAppend(a[1..], b);
    }
  }

  /** Passes that see no data (a timed-out `select`, EAGAIN, an empty read or
      an empty chunk) add nothing. */
  lemma {:induction false} CollectedSkipsIdle(idle: seq<ReadOutcome>, rest: seq<ReadOutcome>)
    requires forall i :: 0 <= i < |idle| ==> idle[i] in {NotReady, WouldBlock, Eof, Data("")}
    ensures Collected(idle + rest) == Collected(rest)
  {
    if idle == [] {
      assert idle + rest == rest;
    } else {
      assert (idle + rest)[1..] == idle[1..] + rest;
      CollectedSkipsIdle(idle[1..], rest);
      if idle[0] == Data("") {
        assert Clean("") == "";
      }
    }
  }

  // ---------------------------------------------------------------------------
  // Closing
  // ---------------------------------------------------------------------------

  /** The calls `close` makes: the `exit` line when there is a process and the
      terminal descriptor is truthy (non-zero), SIGTERM then SIGKILL to the
      process group, then the descriptor is closed. */
  function CloseEffects(process: Option<nat>, fd: Option<nat>): seq<Effect> {
    (if process.Some? && fd.Some? && fd.value != 0 then [Write(fd.value, "exit\n")] else [])
    + (if process.Some? then [Kill(process.value, SIGTERM), Kill(process.value, SIGKILL)] else [])
    + (if fd.Some? then [CloseFd(fd.value)] else [])
  }

  /** With a running shell, closing asks it to exit first, then signals its
      group with SIGTERM and after that SIGKILL, and closes the terminal last. */
  lemma CloseOrder(pid: nat, fd: nat)
    requires fd != 0
    ensures CloseEffects(Some(pid), Some(fd))
            == [Write(fd, "exit\n"), Kill(pid, SIGTERM), Kill(pid, SIGKILL), CloseFd(fd)]
  {
  }

  /** Every signal `close` sends goes to the session's own process, and
      SIGKILL is never sent before SIGTERM. */
  lemma CloseSignalsOwnProcess(process: Option<nat>, fd: Option<nat>)
    ensures var e := CloseEffects(process, fd);
            forall i :: 0 <= i < |e| && e[i].Kill? ==> process.Some? && e[i].pid == process.value
    ensures var e := CloseEffects(process, fd);
            forall i, j :: 0 <= i < j < |e| && e[i].Kill? && e[j].Kill? ==>
              e[i].sig == SIGTERM && e[j].sig == SIGKILL
  {
  }

  /** Descriptor 0 is falsy: with a process but terminal descriptor 0 no
      `exit` line is written, yet the descriptor is still closed. */
  lemma CloseSkipsExitForFdZero(pid: nat)
    ensures CloseEffects(Some(pid), Some(0)) == [Kill(pid, SIGTERM), Kill(pid, SIGKILL), CloseFd(0)]
  {
  }

  /** The effects of the start of a shell. */
  function SpawnEffect(env: Environ, host: Host, dir: string): Effect {
    Spawn([GetShell(env, host), "-i"], dir, GetEnv(env))
  }

  // ---------------------------------------------------------------------------
  // The session
  // ---------------------------------------------------------------------------

  class Session {
    var cwd: string
    var connected: bool
    var process: Option<nat>
    var masterFd: Option<nat>
    var fullOutput: string
    var effects: seq<Effect>

    /** Connected exactly when a shell process is held, and then its terminal
        is open. */
    ghost predicate Valid()
      reads this
    {
      (connected <==> process.Some?) && (connected ==> masterFd.Some?)
    }

    /** `__init__`: the working directory is the given one unless it is
        missing or empty, then the Termux home. */
    constructor (dir: Option<string>, env: Environ)
      ensures dir.Some? && dir.value != "" ==> cwd == dir.value
      ensures dir.None? || dir.value == "" ==> cwd == GetTermuxHome(env)
      ensures !connected && process.None? && masterFd.None?
      ensures fullOutput == "" && effects == []
      ensures Valid()
    {
      cwd := if dir.Some? && dir.value != "" then dir.value else GetTermuxHome(env);
      connected := false;
      process := None;
      masterFd := None;
      fullOutput := "";
      effects := [];
    }

    /** `is_connected`. */
    function IsConnected(): (r: bool)
      reads this
      requires Valid()
      ensures r <==> process.Some?
      ensures r ==> masterFd.Some?
    {
      connected
    }

    /** `read_output`: each pass of the loop either appends a cleaned chunk
        to both the partial and the full output, goes round again, or stops
        the loop. Without a terminal `select` raises at once. */
    method ReadOutput(outcomes: seq<ReadOutcome>, reset: bool) returns (full: string, partial: string)
      modifies this
      ensures partial == (if masterFd.Some? then Collected(outcomes) else "")
      ensures fullOutput == (if reset then "" else old(fullOutput)) + partial
      ensures full == fullOutput
      ensures cwd == old(cwd) && connected == old(connected) && process == old(process)
      ensures masterFd == old(masterFd) && effects == old(effects)
    {
      if reset {
        fullOutput := "";
      }
      ghost var start := fullOutput;
      partial := "";
      if masterFd.Some? {
        var i := 0;
        while i < |outcomes|
          invariant 0 <= i <= |outcomes|
          invariant Collected(outcomes) == partial + Collected(outcomes[i..])
          invariant fullOutput == start + partial
          invariant cwd == old(cwd) && connected == old(connected) && process == old(process)
          invariant masterFd == old(masterFd) && effects == old(effects)
        {
          assert outcomes[i..][1..] == outcomes[i + 1..];
          match outcomes[i] {
            case Failed =>
              break;
            case Data(text) =>
              var cleaned := CleanOutput(text);
              partial := partial + cleaned;
              fullOutput := fullOutput + cleaned;
            case _ =>
          }
          i := i + 1;
        }
      }
      full := fullOutput;
    }

    /** `connect`: nothing to do when connected. Otherwise the terminal is
        opened and the shell `[shell, "-i"]` started on it in `cwd` with the
        prepared environment; the warm-up output is read and discarded. */
    method Connect(env: Environ, host: Host, script: ConnectScript) returns (status: Status)
      requires Valid()
      modifies this
      ensures Valid() && cwd == old(cwd)
      ensures old(connected) ==>
                status == Ok && connected && process == old(process) && masterFd == old(masterFd)
                && fullOutput == old(fullOutput) && effects == old(effects)
      ensures !old(connected) && script.spawn.PtyFailed? ==>
                status == Raised(PtyError) && !connected && process.None?
                && masterFd == old(masterFd) && fullOutput == old(fullOutput) && effects == old(effects)
      ensures !old(connected) && script.spawn.SetupFailed? ==>
                status == Raised(SetupError) && !connected && process.None?
                && masterFd == Some(script.spawn.fd) && fullOutput == old(fullOutput)
                && effects == old(effects)
      ensures !old(connected) && script.spawn.Spawned? ==>
                status == Ok && connected && process == Some(script.spawn.pid)
                && masterFd == Some(script.spawn.fd) && fullOutput == ""
                && effects == old(effects) + [SpawnEffect(env, host, cwd)]
    {
      if connected {
        return Ok;
      }
      var shell := GetShell(env, host);
      match script.spawn
      case PtyFailed =>
        return Raised(PtyError);
      case SetupFailed(fd) =>
        masterFd := Some(fd);
        return Raised(SetupError);
      case Spawned(fd, pid) =>
        masterFd := Some(fd);
        effects := effects + [Spawn([shell, "-i"], cwd, GetEnv(env))];
        process := Some(pid);
        connected := true;
        var _, _ := ReadOutput(script.warmup, true);
        fullOutput := "";
        return Ok;
    }

    /** `close`: stop the shell if there is one, close the terminal if it is
        open, and reset the session. Failures of these calls are ignored. */
    method Close()
      modifies this
      ensures effects == old(effects) + CloseEffects(old(process), old(masterFd))
      ensures old(process).None? && old(masterFd).None? ==> effects == old(effects)
      ensures !connected && process.None? && masterFd.None? && fullOutput == ""
      ensures cwd == old(cwd) && Valid()
    {
      if process.Some? {
        if masterFd.Some? && masterFd.value != 0 {
          effects := effects + [Write(masterFd.value, "exit\n")];
        }
        effects := effects + [Kill(process.value, SIGTERM)];
        effects := effects + [Kill(process.value, SIGKILL)];
        process := None;
      }
      if masterFd.Some? {
        effects := effects + [CloseFd(masterFd.value)];
        masterFd := None;
      }
      connected := false;
      fullOutput := "";
    }

    /** The state `send_command` leaves once the shell `pid` runs on the
        terminal `fd` and `before` are the calls made so far: the line is
        written; when that write fails the session is closed, connected
        again, and the line written once more, whose failure escapes. */
    ghost predicate Sent(status: Status, before: seq<Effect>, fd: nat, pid: nat, line: string,
                         env: Environ, host: Host, script: SendScript)
      reads this
    {
      var written := before + [Write(fd, line)];
      var closed := written + CloseEffects(Some(pid), Some(fd));
      fullOutput == ""
      && if script.firstWriteOk then
           status == Ok && connected && process == Some(pid) && masterFd == Some(fd)
           && effects == written
         else match script.reconnect.spawn
           case PtyFailed =>
             status == Raised(PtyError) && !connected && process.None? && masterFd.None?
             && effects == closed
           case SetupFailed(fd') =>
             status == Raised(SetupError) && !connected && process.None? && masterFd == Some(fd')
             && effects == closed
           case Spawned(fd', pid') =>
             status == (if script.secondWriteOk then Ok else Raised(WriteError))
             && connected && process == Some(pid') && masterFd == Some(fd')
             && effects == closed + [SpawnEffect(env, host, cwd), Write(fd', line)]
    }

    /** The write of `send_command` on a connected session, with its one
        recovery. */
    method WriteLine(line: string, env: Environ, host: Host, script: SendScript)
      returns (status: Status)
      requires Valid() && connected
      modifies this
      ensures Valid() && cwd == old(cwd)
      ensures Sent(status, old(effects), old(masterFd).value, old(process).value, line, env, host, script)
    {
      fullOutput := "";
      effects := effects + [Write(masterFd.value, line)];
      status := Ok;
      if !script.firstWriteOk {
        Close();
        status := Connect(env, host, script.reconnect);
        if status.Raised? {
          return;
        }
        effects := effects + [Write(masterFd.value, line)];
        if !script.secondWriteOk {
          status := Raised(WriteError);
        }
      }
    }

    /** `send_command`: connect if needed, clear the output, write the
        command line; if that write fails, close, connect again and write once
        more, letting a second failure through. */
    method SendCommand(command: string, env: Environ, host: Host, script: SendScript)
      returns (status: Status)
      requires Valid()
      modifies this
      ensures Valid() && cwd == old(cwd)
      // The first connect fails: its error escapes, and the output is kept.
      ensures !old(connected) && script.connect.spawn.PtyFailed? ==>
                status == Raised(PtyError) && !connected && process.None?
                && masterFd == old(masterFd) && fullOutput == old(fullOutput) && effects == old(effects)
      ensures !old(connected) && script.connect.spawn.SetupFailed? ==>
                status == Raised(SetupError) && !connected && process.None?
                && masterFd == Some(script.connect.spawn.fd) && fullOutput == old(fullOutput)
                && effects == old(effects)
      // The shell runs: the line is written on its terminal.
      ensures old(connected) ==>
                Sent(status, old(effects), old(masterFd).value, old(process).value,
                     CommandLine(command), env, host, script)
      ensures !old(connected) && script.connect.spawn.Spawned? ==>
                Sent(status, old(effects) + [SpawnEffect(env, host, cwd)],
                     script.connect.spawn.fd, script.connect.spawn.pid,
                     CommandLine(command), env, host, script)
    {
      if !connected {
        status := Connect(env, host, script.connect);
        if status.Raised? {
          return;
        }
      }
      status := WriteLine(CommandLine(command), env, host, script);
    }
  }
}
