/**
 * The process supervisor of main.py: one optional handle on the server
 * process, the commands start, stop, restart and status, and the loop that
 * reads commands until `exit`.
 *
 * The child process is abstract: a pid, whether `poll()` finds it running,
 * and whether it exits within the grace period after `terminate()`. Whether
 * spawning succeeds is an input of `start`.
 */
module Supervisor {
  import opened Values

  // ---------------------------------------------------------------------
  // Commands
  // ---------------------------------------------------------------------

  datatype Command = Start | Stop | Restart | Status | Exit

  /** The value of each member of the `Command` enum. */
  function Token(c: Command): string {
    match c
    case Start => "start"
    case Stop => "stop"
    case Restart => "restart"
    case Status => "status"
    case Exit => "exit"
  }

  /** The characters Python's `str.strip()` removes (those for which `isspace()` holds). */
  predicate IsSpace(c: char) {
    ('\t' <= c <= '\r') || ('\U{1C}' <= c <= ' ') || c == '\U{85}' || c == '\U{A0}'
    || c == '\U{1680}' || ('\U{2000}' <= c <= '\U{200A}') || c == '\U{2028}' || c == '\U{2029}'
    || c == '\U{202F}' || c == '\U{205F}' || c == '\U{3000}'
  }

  /** `lstrip()`: drops the leading whitespace. */
  function TrimStart(s: string): string {
    if s != [] && IsSpace(s[0]) then TrimStart(s[1..]) else s
  }

  /** `rstrip()`: drops the trailing whitespace. */
  function TrimEnd(s: string): string {
    if s != [] && IsSpace(s[|s| - 1]) then TrimEnd(s[..|s| - 1]) else s
  }

  /** TrimStart removes exactly the longest leading run of whitespace. */
  lemma {:induction false} TrimStartSpec(s: string)
    ensures |TrimStart(s)| <= |s| && TrimStart(s) == s[|s| - |TrimStart(s)|..]
    ensures TrimStart(s) == [] || !IsSpace(TrimStart(s)[0])
    ensures forall i :: 0 <= i < |s| - |TrimStart(s)| ==> IsSpace(s[i])
  {
    if s != [] && IsSpace(s[0]) {
      TrimStartSpec(s[1..]);
      assert forall i :: 1 <= i < |s| ==> s[i] == s[1..][i - 1];
    }
  }

  /** TrimEnd removes exactly the longest trailing run of whitespace. */
  lemma {:induction false} TrimEndSpec(s: string)
    ensures |TrimEnd(s)| <= |s| && TrimEnd(s) == s[..|TrimEnd(s)|]
    ensures TrimEnd(s) == [] || !IsSpace(TrimEnd(s)[|TrimEnd(s)| - 1])
    ensures forall i :: |TrimEnd(s)| <= i < |s| ==> IsSpace(s[i])
  {
    if s != [] && IsSpace(s[|s| - 1]) {
      TrimEndSpec(s[..|s| - 1]);
      assert forall i :: 0 <= i < |s| - 1 ==> s[i] == s[..|s| - 1][i];
    }
  }

  /** `s.strip()`: s without its leading and trailing whitespace. */
  function Strip(s: string): string {
    TrimEnd(TrimStart(s))
  }

  function LowerChar(c: char): char {
    if 'A' <= c <= 'Z' then (c as int + 32) as char else c
  }

  /** `s.lower()` on the letters A to Z (see the README for why that suffices here). */
  function Lower(s: string): string {
    if s == [] then [] else [LowerChar(s[0])] + Lower(s[1..])
  }

  /** Lower keeps the length and lowers each character in place. */
  lemma {:induction false} LowerSpec(s: string)
    ensures |Lower(s)| == |s| && forall i :: 0 <= i < |s| ==> Lower(s)[i] == LowerChar(s[i])
  {
    if s != [] {
      LowerSpec(s[1..]);
      assert forall i :: 1 <= i < |s| ==> s[i] == s[1..][i - 1];
    }
  }

  /** The text the loop compares: `input(...).strip().lower()`. */
  function Normalize(line: string): string {
    Lower(Strip(line))
  }

  /**
   * `command in Command._value2member_map_` and the chain of comparisons
   * after it: the command whose value is `text`, if any.
   */
  function Recognise(text: string): Option<Command> {
    if text == "start" then Some(Start)
    else if text == "stop" then Some(Stop)
    else if text == "restart" then Some(Restart)
    else if text == "status" then Some(Status)
    else if text == "exit" then Some(Exit)
    else None
  }

  /** What the loop makes of one input line. */
  function ParseCommand(line: string): Option<Command> {
    Recognise(Normalize(line))
  }

  /** A text is recognised as a command exactly when it is that command's value. */
  lemma RecogniseToken(c: Command, text: string)
    ensures Recognise(text) == Some(c) <==> text == Token(c)
  {
    match c
    case Start =>
    case Stop =>
    case Restart =>
    case Status =>
    case Exit =>
  }

  /** A line is read as a command exactly when its normalized text is that command's value. */
  lemma ParseCommandRecognises(c: Command, line: string)
    ensures ParseCommand(line) == Some(c) <==> Normalize(line) == Token(c)
  {
    RecogniseToken(c, Normalize(line));
  }

  lemma {:induction false} TrimStartSkipsSpaces(lead: string, w: string)
    requires forall i :: 0 <= i < |lead| ==> IsSpace(lead[i])
    requires w == [] || !IsSpace(w[0])
    ensures TrimStart(lead + w) == w
  {
    if lead == [] {
      assert lead + w == w;
    } else {
      assert (lead + w)[1..] == lead[1..] + w;
      TrimStartSkipsSpaces(lead[1..], w);
    }
  }

  lemma {:induction false} TrimEndSkipsSpaces(w: string, trail: string)
    requires forall i :: 0 <= i < |trail| ==> IsSpace(trail[i])
    requires w == [] || !IsSpace(w[|w| - 1])
    ensures TrimEnd(w + trail) == w
  {
    if trail == [] {
      assert w + trail == w;
    } else {
      var shorter := trail[..|trail| - 1];
      assert (w + trail)[..|w + trail| - 1] == w + shorter;
      TrimEndSkipsSpaces(w, shorter);
    }
  }

  /** Every character of a command's value is a lower-case letter. */
  lemma TokenIsLetters(c: Command)
    ensures |Token(c)| > 0
    ensures forall i :: 0 <= i < |Token(c)| ==> 'a' <= Token(c)[i] <= 'z'
  {
  }

  /** A character that lowers to a letter is a letter, hence not whitespace. */
  lemma LetterIsNotSpace(ch: char)
    requires 'a' <= LowerChar(ch) <= 'z'
    ensures !IsSpace(ch)
  {
  }

  /**
   * A command is recognised whatever whitespace surrounds it and whatever
   * the case of its letters.
   */
  lemma ParseIgnoresSpaceAndCase(c: Command, lead: string, word: string, trail: string)
    requires forall i :: 0 <= i < |lead| ==> IsSpace(lead[i])
    requires forall i :: 0 <= i < |trail| ==> IsSpace(trail[i])
    requires Lower(word) == Token(c)
    ensures ParseCommand(lead + word + trail) == Some(c)
  {
    TokenIsLetters(c);
    LowerSpec(word);
    assert |word| > 0;
    assert Token(c)[0] == LowerChar(word[0]);
    LetterIsNotSpace(word[0]);
    assert Token(c)[|word| - 1] == LowerChar(word[|word| - 1]);
    LetterIsNotSpace(word[|word| - 1]);
    assert lead + word + trail == lead + (word + trail);
    TrimStartSkipsSpaces(lead, word + trail);
    TrimEndSkipsSpaces(word, trail);
    assert Strip(lead + word + trail) == word;
    ParseCommandRecognises(c, lead + word + trail);
  }

  // ---------------------------------------------------------------------
  // Process handle and supervisor state
  // ---------------------------------------------------------------------

  /**
   * The handle `subprocess.Popen` returns: `alive` is what `poll()` reports
   * (None means running), `exitsInGrace` whether the process ends within the
   * grace period once asked to terminate.
   */
  datatype Proc = Proc(pid: nat, alive: bool, exitsInGrace: bool)

  /** Whether `subprocess.Popen` returns a process or raises. */
  datatype SpawnResult = Spawned(proc: Proc) | SpawnFailed

  /** The operating-system requests the supervisor makes, in order. */
  datatype OsCall = Popen(argv: seq<string>) | Terminate(pid: nat) | Wait(pid: nat, timeout: nat) | Kill(pid: nat)

  const ServerCommand: seq<string> := ["cmd.exe", "/c", "python", "server.py"]
  const GracePeriod: nat := 5

  /** The fields of `Main`: `server_process`, and `api_config` (None while it was never assigned). */
  datatype State = State(process: Option<Proc>, apiConfig: Option<Value>)

  /** `self.server_process and self.server_process.poll() is None`. */
  predicate Running(s: State) {
    s.process.Some? && s.process.value.alive
  }

  /**
   * `Main.__init__` with the parsed configuration file (None when it could
   * not be read or parsed): `api_config` is assigned only when the file holds
   * an object with a "Routing" key.
   */
  function Initial(config: Option<Value>): (s: State)
    ensures s.process == None
    ensures s.apiConfig.Some? <==> config.Some? && config.value.Dict? && Lookup(config.value.entries, "Routing").Some?
    ensures s.apiConfig.Some? ==> s.apiConfig == Lookup(config.value.entries, "Routing")
  {
    State(None, if config.Some? && config.value.Dict? then Lookup(config.value.entries, "Routing") else None)
  }

  /** A command's new state, what it reported, and the requests it made. */
  datatype Step<O> = Step(state: State, outcome: O, calls: seq<OsCall>)

  datatype StartOutcome =
    | AlreadyRunning        // "Server is already running"
    | SpawnError            // Popen raised: "Failed to start server"
    | StartReportedFailure  // spawned, then the registration loop raised: "Failed to start server"
    | StartedOk             // spawned, and the loop ran no iteration: "Server started successfully."

  /**
   * Whether the loop `for conf in self.api_config` runs without raising:
   * only when `api_config` was assigned and iterates nothing. Any iteration
   * reads `self.api`, which no code assigns.
   */
  predicate RegistrationLoopPasses(apiConfig: Option<Value>) {
    apiConfig.Some? && Elements(apiConfig.value) == Some([])
  }

  /** `Main.start`. */
  function StartSpec(s: State, spawn: SpawnResult): (r: Step<StartOutcome>)
    ensures Running(s) ==> r == Step(s, AlreadyRunning, [])
    ensures !Running(s) ==> r.calls == [Popen(ServerCommand)] && r.state.apiConfig == s.apiConfig
    ensures !Running(s) && spawn.SpawnFailed? ==> r.state == s && r.outcome == SpawnError
    ensures !Running(s) && spawn.Spawned? ==>
              r.state.process == Some(spawn.proc)
              && (r.outcome == StartedOk <==> RegistrationLoopPasses(s.apiConfig))
              && (r.outcome != StartedOk ==> r.outcome == StartReportedFailure)
  {
    if Running(s) then Step(s, AlreadyRunning, [])
    else match spawn
      case SpawnFailed => Step(s, SpawnError, [Popen(ServerCommand)])
      case Spawned(p) =>
        Step(s.(process := Some(p)),
             if RegistrationLoopPasses(s.apiConfig) then StartedOk else StartReportedFailure,
             [Popen(ServerCommand)])
  }

  datatype StopOutcome =
    | NotRunning         // "Server is not running"
    | Terminated         // the process exited within the grace period
    | ForceKilled        // "Force killing the server..."

  /** `Main.stop`. */
  function StopSpec(s: State): (r: Step<StopOutcome>)
    ensures !Running(s) ==> r == Step(s, NotRunning, [])
    ensures Running(s) ==>
              var p := s.process.value;
              && r.state == State(None, s.apiConfig)
              && r.calls == [Terminate(p.pid), Wait(p.pid, GracePeriod)] + (if p.exitsInGrace then [] else [Kill(p.pid)])
              && (r.outcome == ForceKilled <==> !p.exitsInGrace)
              && r.outcome != NotRunning
  {
    if !Running(s) then Step(s, NotRunning, [])
    else
      var p := s.process.value;
      if p.exitsInGrace then Step(State(None, s.apiConfig), Terminated, [Terminate(p.pid), Wait(p.pid, GracePeriod)])
      else Step(State(None, s.apiConfig), ForceKilled, [Terminate(p.pid), Wait(p.pid, GracePeriod), Kill(p.pid)])
  }

  /** `Main.restart`: stop, then start, with nothing in between. */
  function RestartSpec(s: State, spawn: SpawnResult): Step<(StopOutcome, StartOutcome)> {
    var stopped := StopSpec(s);
    var started := StartSpec(stopped.state, spawn);
    Step(started.state, (stopped.outcome, started.outcome), stopped.calls + started.calls)
  }

  /**
   * Restart always reaches the spawn: after its stop nothing runs, so its
   * start never reports "already running", asks to spawn last, and leaves
   * the new process recorded exactly when spawning succeeds.
   */
  lemma RestartAlwaysSpawns(s: State, spawn: SpawnResult)
    ensures var r := RestartSpec(s, spawn);
            && r.outcome.1 != AlreadyRunning
            && |r.calls| > 0 && r.calls[|r.calls| - 1] == Popen(ServerCommand)
            && r.calls[..|r.calls| - 1] == StopSpec(s).calls
            && (spawn.Spawned? ==> r.state.process == Some(spawn.proc))
            && (spawn.SpawnFailed? ==> r.state.process == StopSpec(s).state.process)
            && r.state.apiConfig == s.apiConfig
  {
    var stopped := StopSpec(s);
    var r := RestartSpec(s, spawn);
    assert r.calls == stopped.calls + [Popen(ServerCommand)];
  }

  /** A second start while the first process still runs is a no-op that reports "already running". */
  lemma StartTwice(s: State, p: Proc, again: SpawnResult)
    requires !Running(s) && p.alive
    ensures var first := StartSpec(s, Spawned(p));
            var second := StartSpec(first.state, again);
            && second.outcome == AlreadyRunning
            && second.state == first.state && second.state.process == Some(p)
            && second.calls == []
  {
  }

  /** Stop after any start leaves no process recorded as running. */
  lemma {:induction false} NothingRunsAfterStop(s: State)
    ensures !Running(StopSpec(s).state)
    ensures Running(s) ==> StopSpec(s).state.process == None
  {
  }

  /** Restart of a supervisor with nothing running records the new process, which then runs. */
  lemma RestartFromStopped(s: State, p: Proc)
    requires !Running(s) && p.alive
    ensures var r := RestartSpec(s, Spawned(p));
            && Running(r.state) && r.state.process == Some(p)
            && r.outcome.0 == NotRunning
            && r.calls == [Popen(ServerCommand)]
  {
  }

  /** Restart of a running supervisor ends the old process before asking for the new one. */
  lemma RestartWhileRunning(s: State, spawn: SpawnResult)
    requires Running(s)
    ensures var p := s.process.value;
            var r := RestartSpec(s, spawn);
            && r.calls[0] == Terminate(p.pid)
            && r.calls[|r.calls| - 1] == Popen(ServerCommand)
            && (r.state.process.Some? <==> spawn.Spawned?)
  {
  }

  // ---------------------------------------------------------------------
  // The supervisor object
  // ---------------------------------------------------------------------

  class Main {
    var serverProcess: Option<Proc>
    var apiConfig: Option<Value>

    function Snapshot(): State
      reads this
    {
      State(serverProcess, apiConfig)
    }

    /** `Main()` with the parsed configuration file, None when reading it failed. */
    constructor (config: Option<Value>)
      ensures Snapshot() == Initial(config)
    {
      serverProcess := None;
      apiConfig := if config.Some? && config.value.Dict? then Lookup(config.value.entries, "Routing") else None;
    }

    method Start(spawn: SpawnResult) returns (outcome: StartOutcome, calls: seq<OsCall>)
      modifies this
      ensures Step(Snapshot(), outcome, calls) == StartSpec(old(Snapshot()), spawn)
    {
      if serverProcess.Some? && serverProcess.value.alive {
        return AlreadyRunning, [];
      }
      calls := [Popen(ServerCommand)];
      match spawn {
        case SpawnFailed =>
          outcome := SpawnError;
        case Spawned(p) =>
          serverProcess := Some(p);
          // the first turn of `for conf in self.api_config` raises on `self.api`
          if apiConfig.Some? && Elements(apiConfig.value) == Some([]) {
            outcome := StartedOk;
          } else {
            outcome := StartReportedFailure;
          }
      }
    }

    method Stop() returns (outcome: StopOutcome, calls: seq<OsCall>)
      modifies this
      ensures Step(Snapshot(), outcome, calls) == StopSpec(old(Snapshot()))
    {
      if serverProcess.None? || !serverProcess.value.alive {
        return NotRunning, [];
      }
      var p := serverProcess.value;
      calls := [Terminate(p.pid), Wait(p.pid, GracePeriod)];
      if p.exitsInGrace {
        outcome := Terminated;
      } else {
        // `wait` raised TimeoutExpired
        calls := calls + [Kill(p.pid)];
        outcome := ForceKilled;
      }
      serverProcess := None;
    }

    method Restart(spawn: SpawnResult) returns (outcome: (StopOutcome, StartOutcome), calls: seq<OsCall>)
      modifies this
      ensures Step(Snapshot(), outcome, calls) == RestartSpec(old(Snapshot()), spawn)
    {
      var stopped, stopCalls := Stop();
      var started, startCalls := Start(spawn);
      outcome, calls := (stopped, started), stopCalls + startCalls;
    }

    /** `Main.status`: whether the server runs, changing nothing. */
    method Status() returns (running: bool)
      ensures running <==> serverProcess.Some? && serverProcess.value.alive
    {
      running := serverProcess.Some? && serverProcess.value.alive;
    }
  }

  // ---------------------------------------------------------------------
  // The command loop of `__main__`
  // ---------------------------------------------------------------------

  /** A command other than exit, as the loop carries it out. */
  function Execute(s: State, c: Command, spawn: SpawnResult): (State, seq<OsCall>)
    requires c != Exit
  {
    match c
    case Start => var r := StartSpec(s, spawn); (r.state, r.calls)
    case Stop => var r := StopSpec(s); (r.state, r.calls)
    case Restart => var r := RestartSpec(s, spawn); (r.state, r.calls)
    case Status => (s, [])
  }

  /**
   * No command changes `api_config`; `status` changes nothing at all, and
   * only `start` and `restart` depend on whether spawning succeeds.
   */
  lemma ExecuteSpec(s: State, c: Command, spawn: SpawnResult, other: SpawnResult)
    requires c != Exit
    ensures Execute(s, c, spawn).0.apiConfig == s.apiConfig
    ensures c == Status ==> Execute(s, c, spawn) == (s, [])
    ensures c == Stop ==> Execute(s, c, spawn) == Execute(s, c, other)
    ensures c == Start ==> Execute(s, c, spawn) == (StartSpec(s, spawn).state, StartSpec(s, spawn).calls)
    ensures c == Restart ==> Execute(s, c, spawn) == (RestartSpec(s, spawn).state, RestartSpec(s, spawn).calls)
  {
  }

  /**
   * Where the loop ends: the state, how many lines it read, whether it
   * ended by `exit` (otherwise the input ran out), and the requests made.
   */
  datatype Session = Session(state: State, consumed: nat, exited: bool, calls: seq<OsCall>)

  /** What the loop recognises in each input line. */
  function ParseAll(lines: seq<string>): (commands: seq<Option<Command>>)
    ensures |commands| == |lines|
    ensures forall i :: 0 <= i < |lines| ==> commands[i] == ParseCommand(lines[i])
  {
    seq(|lines|, i requires 0 <= i < |lines| => ParseCommand(lines[i]))
  }

  /**
   * The loop from line `i` on, over what it recognises in each line.
   * `spawnAt(i)` says whether the start that line `i` triggers can spawn
   * the server.
   */
  function Run(s: State, commands: seq<Option<Command>>, spawnAt: nat -> SpawnResult, i: nat): (r: Session)
    requires i <= |commands|
    ensures i <= r.consumed <= |commands|
    ensures r.exited ==> i < r.consumed && commands[r.consumed - 1] == Some(Exit) && !Running(r.state)
    ensures !r.exited ==> r.consumed == |commands|
    decreases |commands| - i
  {
    if i == |commands| then Session(s, i, false, [])
    else
      match commands[i]
      case None => Run(s, commands, spawnAt, i + 1)
      case Some(Exit) =>
        var r := StopSpec(s);
        Session(r.state, i + 1, true, r.calls)
      case Some(c) =>
        var (t, calls) := Execute(s, c, spawnAt(i));
        var rest := Run(t, commands, spawnAt, i + 1);
        Session(rest.state, rest.consumed, rest.exited, calls + rest.calls)
  }

  /** Each line is read on its own: reading two parts of the input is reading them one after the other. */
  lemma ParseAllAppend(a: seq<string>, b: seq<string>)
    ensures ParseAll(a + b) == ParseAll(a) + ParseAll(b)
  {
    var whole, left, right := ParseAll(a + b), ParseAll(a), ParseAll(b);
    forall i | 0 <= i < |a + b|
      ensures whole[i] == (left + right)[i]
    {
      if i < |a| {
        assert (a + b)[i] == a[i];
      } else {
        assert (a + b)[i] == b[i - |a|];
      }
    }
  }

  /** The index of the first `exit` line from `i` on, or the length of the input when there is none. */
  function FirstExit(commands: seq<Option<Command>>, i: nat): (k: nat)
    requires i <= |commands|
    ensures i <= k <= |commands|
    ensures k < |commands| <==> Some(Exit) in commands[i..]
    ensures k < |commands| ==> commands[k] == Some(Exit)
    ensures Some(Exit) !in commands[i..k]
    decreases |commands| - i
  {
    if i == |commands| then i
    else
      assert commands[i..] == [commands[i]] + commands[i + 1..];
      if commands[i] == Some(Exit) then i
      else
        var k := FirstExit(commands, i + 1);
        assert commands[i..k] == [commands[i]] + commands[i + 1..k];
        k
  }

  /**
   * The loop ends by `exit` exactly when an `exit` line lies ahead, and
   * then right after the FIRST such line; whatever the commands do to the
   * state, they never change where the loop ends.
   */
  lemma {:induction false} RunStopsAtFirstExit(s: State, commands: seq<Option<Command>>, spawnAt: nat -> SpawnResult, i: nat)
    requires i <= |commands|
    ensures Run(s, commands, spawnAt, i).exited <==> FirstExit(commands, i) < |commands|
    ensures Run(s, commands, spawnAt, i).exited ==> Run(s, commands, spawnAt, i).consumed == FirstExit(commands, i) + 1
    decreases |commands| - i
  {
    if i < |commands| && commands[i] != Some(Exit) {
      if commands[i].None? {
        UnknownLineChangesNothing(s, commands, spawnAt, i);
        RunStopsAtFirstExit(s, commands, spawnAt, i + 1);
      } else {
        RunCommandStep(s, commands, spawnAt, i);
        RunStopsAtFirstExit(Execute(s, commands[i].value, spawnAt(i)).0, commands, spawnAt, i + 1);
      }
    }
  }

  /** An unrecognised line is reported and changes nothing. */
  lemma UnknownLineChangesNothing(s: State, commands: seq<Option<Command>>, spawnAt: nat -> SpawnResult, i: nat)
    requires i < |commands| && commands[i].None?
    ensures Run(s, commands, spawnAt, i) == Run(s, commands, spawnAt, i + 1)
  {
  }

  /** `status` changes nothing either. */
  lemma StatusLineChangesNothing(s: State, commands: seq<Option<Command>>, spawnAt: nat -> SpawnResult, i: nat)
    requires i < |commands| && commands[i] == Some(Status)
    ensures Run(s, commands, spawnAt, i) == Run(s, commands, spawnAt, i + 1)
  {
    var rest := Run(s, commands, spawnAt, i + 1);
    assert [] + rest.calls == rest.calls;
  }

  /** A recognised command other than exit is carried out, and the loop goes on. */
  lemma RunCommandStep(s: State, commands: seq<Option<Command>>, spawnAt: nat -> SpawnResult, i: nat)
    requires i < |commands| && commands[i].Some? && commands[i] != Some(Exit)
    ensures var (t, calls) := Execute(s, commands[i].value, spawnAt(i));
            var rest := Run(t, commands, spawnAt, i + 1);
            Run(s, commands, spawnAt, i) == Session(rest.state, rest.consumed, rest.exited, calls + rest.calls)
  {
  }

  /** `exit` stops the server and ends the loop at once; later lines are never read. */
  lemma ExitStopsThenEnds(s: State, commands: seq<Option<Command>>, spawnAt: nat -> SpawnResult, i: nat)
    requires i < |commands| && commands[i] == Some(Exit)
    ensures Run(s, commands, spawnAt, i) == Session(StopSpec(s).state, i + 1, true, StopSpec(s).calls)
  {
  }

  /** One recognised command other than exit, carried out on the supervisor. */
  method Perform(m: Main, c: Command, spawn: SpawnResult) returns (calls: seq<OsCall>)
    requires c != Exit
    modifies m
    ensures (m.Snapshot(), calls) == Execute(old(m.Snapshot()), c, spawn)
  {
    match c {
      case Start =>
        var _, made := m.Start(spawn);
        calls := made;
      case Stop =>
        var _, made := m.Stop();
        calls := made;
      case Restart =>
        var _, made := m.Restart(spawn);
        calls := made;
      case Status =>
        var _ := m.Status();
        calls := [];
    }
  }

  /**
   * One turn of the loop on what line `i` says: `exit` stops the server and
   * ends the loop, another command is carried out, an unknown one is
   * reported. `ended` tells which; `made` are the requests of this turn.
   */
  method Turn(m: Main, ghost commands: seq<Option<Command>>, spawnAt: nat -> SpawnResult, i: nat, command: Option<Command>)
    returns (ended: bool, made: seq<OsCall>)
    requires i < |commands| && command == commands[i]
    modifies m
    ensures ended <==> command == Some(Exit)
    ensures ended ==> Run(old(m.Snapshot()), commands, spawnAt, i) == Session(m.Snapshot(), i + 1, true, made)
    ensures !ended ==>
              var rest := Run(m.Snapshot(), commands, spawnAt, i + 1);
              Run(old(m.Snapshot()), commands, spawnAt, i) == Session(rest.state, rest.consumed, rest.exited, made + rest.calls)
  {
    ghost var before := m.Snapshot();
    if command == Some(Exit) {
      var _, calls := m.Stop();
      ExitStopsThenEnds(before, commands, spawnAt, i);
      return true, calls;
    }
    if command.Some? {
      made := Perform(m, command.value, spawnAt(i));
      RunCommandStep(before, commands, spawnAt, i);
    } else {
      // "Unknown command: ..."
      UnknownLineChangesNothing(before, commands, spawnAt, i);
      made := [];
      ghost var rest := Run(m.Snapshot(), commands, spawnAt, i + 1);
      assert made + rest.calls == rest.calls;
    }
    ended := false;
  }

  /**
   * `while True: command = input(...).strip().lower(); ...`, with the
   * input given as a sequence of lines; reading past the last line ends
   * the loop.
   */
  method CommandLoop(m: Main, lines: seq<string>, spawnAt: nat -> SpawnResult)
    returns (consumed: nat, exited: bool, calls: seq<OsCall>)
    modifies m
    ensures Session(m.Snapshot(), consumed, exited, calls) == Run(old(m.Snapshot()), ParseAll(lines), spawnAt, 0)
  {
    ghost var commands := ParseAll(lines);
    ghost var whole := Run(m.Snapshot(), commands, spawnAt, 0);
    var i := 0;
    calls := [];
    while i < |lines|
      invariant i <= |lines|
      invariant var rest := Run(m.Snapshot(), commands, spawnAt, i);
                whole == Session(rest.state, rest.consumed, rest.exited, calls + rest.calls)
      decreases |lines| - i
    {
      var command := ParseCommand(lines[i]);
      var ended, made := Turn(m, commands, spawnAt, i, command);
      if ended {
        return i + 1, true, calls + made;
      }
      ghost var rest := Run(m.Snapshot(), commands, spawnAt, i + 1);
      assert calls + (made + rest.calls) == (calls + made) + rest.calls;
      calls := calls + made;
      i := i + 1;
    }
    return i, false, calls;
  }
}
