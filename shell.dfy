/** The shell session: the working-directory name shown in the prompt and
    where the shell's own standard output currently goes, and what one
    command line does to them (parseCommand, executeExpression, cd), one
    interactive line and a script file (executeFile).

    The operating system is a parameter: an Env gives, for one command line,
    the files and their kinds, the PATH variable (None when unset), whether
    fopen of the redirection target succeeds, and what chdir and getcwd
    report for a `cd`. */
module Shell {
  import opened Basics
  import opened Parser
  import opened Resolver
  import opened Process
  import opened Builtins

  /** Where standard output goes: the terminal or a redirection's file. */
  datatype Output = Terminal | File(target: Redirect)

  /** What chdir reports, and when it succeeds, what getcwd then reports
      (None when getcwd fails). */
  datatype Chdir = NoSuchDirectory | Entered(cwd: Option<string>)

  datatype Env = Env(fs: FileSystem, path: Option<string>, openOk: bool, chdir: Chdir)

  /** What a command line does. */
  datatype Effect =
    | ParseFailed(error: ParseError)
    | CdUsageError
    | ExitUsageError
    | NoDirectory(path: string)
    | ChangedDir
    | Exited
    | NoProgram(name: string)
    | Ran(exec: Exec)
    | Piped(pipes: nat, children: seq<Child>, parentCloses: seq<nat>)

  /** The line the shell prints for an effect, if any. */
  function Message(e: Effect): (m: Option<string>)
    ensures m.None? <==> e.ChangedDir? || e.Exited? || e.Ran? || e.Piped?
  {
    match e
    case ParseFailed(err) => Some(err.Text())
    case CdUsageError => Some(CdUsageText)
    case ExitUsageError => Some(ExitUsageText)
    case NoDirectory(p) => Some(NoDirectoryText(p))
    case NoProgram(n) => Some(NoProgramText(n))
    case _ => None
  }

  /** The shell's global state: the prompt's directory name and the current
      standard output. */
  datatype ShellState = ShellState(cwd: string, stdout: Output)

  /** One line's effect, where its messages and programs' output went, and
      the state afterwards. */
  datatype Outcome = Outcome(effect: Effect, sink: Output, next: ShellState)

  /** executeExpression on a single stage: the built-ins, else the external
      program; the second component is the new prompt name. */
  function Expression(stage: Stage, env: Env, cwd: string): (Effect, string)
    requires |stage| >= 1
  {
    match Classify(stage)
    case ChangeDir(p) =>
      (match env.chdir
       case NoSuchDirectory => (NoDirectory(p), cwd)
       case Entered(c) => (ChangedDir, if c.Some? then DisplayName(c.value) else cwd))
    case CdUsage => (CdUsageError, cwd)
    case Exit => (Exited, cwd)
    case ExitUsage => (ExitUsageError, cwd)
    case External =>
      (match Resolve(env.fs, env.path, stage[0])
       case None => (NoProgram(stage[0]), cwd)
       case Some(p) => (Ran(Exec(p, Argv(stage))), cwd))
  }

  /** executePipes as an effect. */
  function PipelineEffect(fs: FileSystem, path: Option<string>, stages: seq<Stage>): Effect
    requires ValidStages(stages)
  {
    match PipelinePlan(fs, path, stages)
    case Unresolved(n) => NoProgram(n)
    case Launched(pipes, children, closes) => Piped(pipes, children, closes)
  }

  /** The parsed stages run as a pipeline when there are several, and as a
      single expression otherwise. */
  function Run(stages: seq<Stage>, env: Env, cwd: string): (Effect, string)
    requires ValidStages(stages)
  {
    if |stages| > 1 then (PipelineEffect(env.fs, env.path, stages), cwd)
    else Expression(stages[0], env, cwd)
  }

  /** parseCommand: parse the line; on an error report it, leaving in place
      a redirection already applied; otherwise send standard output to the
      redirection's file, run the pipeline or the single stage, and put
      standard output back. */
  ghost function Step(command: string, env: Env, s: ShellState): Outcome
  {
    var toks := LineTokens(command);
    match Parse(toks, env.openOk)
    case Failed(e, unrestored) =>
      var out := if unrestored.Some? then File(unrestored.value) else s.stdout;
      Outcome(ParseFailed(e), out, ShellState(s.cwd, out))
    case Parsed(stages, redirect) =>
      ParsedValid(toks, env.openOk);
      var sink := if redirect.Some? then File(redirect.value) else s.stdout;
      var (effect, cwd) := Run(stages, env, s.cwd);
      Outcome(effect, sink, ShellState(cwd, s.stdout))
  }

  lemma ParsedValid(toks: seq<Token>, openOk: bool)
    requires Parse(toks, openOk).Parsed?
    ensures ValidStages(Parse(toks, openOk).stages)
  {
    ParsedShape(toks, openOk);
  }

  /** Lines run one after another, each by `step`, until one of them exits. */
  ghost function RunLines(step: (string, Env, ShellState) -> Outcome, lines: seq<string>, envs: seq<Env>, s: ShellState): seq<Outcome>
    requires |envs| == |lines|
  {
    if lines == [] then []
    else
      var o := step(lines[0], envs[0], s);
      if o.effect == Exited then [o] else [o] + RunLines(step, lines[1..], envs[1..], o.next)
  }

  /** A script's lines run through parseCommand until one of them exits. */
  ghost function Script(lines: seq<string>, envs: seq<Env>, s: ShellState): seq<Outcome>
    requires |envs| == |lines|
  {
    RunLines(Step, lines, envs, s)
  }

  class Shell {
    var cwdName: string
    var stdout: Output

    function State(): ShellState
      reads this
    {
      ShellState(cwdName, stdout)
    }

    /** The interactive session starts in the user's home directory, shown
        by the user's name, with output on the terminal. */
    constructor (userName: string)
      ensures State() == ShellState(userName, Terminal)
    {
      cwdName := userName;
      stdout := Terminal;
    }

    /** cd: on success the prompt shows the last component of the new
        directory, or "/" for the root; when getcwd fails it is left as it
        was. */
    method Cd(pathName: string, chdir: Chdir) returns (effect: Effect)
      modifies this
      ensures chdir.NoSuchDirectory? ==> effect == NoDirectory(pathName) && cwdName == old(cwdName)
      ensures chdir.Entered? ==>
        effect == ChangedDir && cwdName == (if chdir.cwd.Some? then DisplayName(chdir.cwd.value) else old(cwdName))
      ensures stdout == old(stdout)
    {
      if chdir.NoSuchDirectory? {
        return NoDirectory(pathName);
      }
      effect := ChangedDir;
      if chdir.cwd.Some? {
        var name := chdir.cwd.value;
        if name != "/" {
          match LastIndexOf(name, '/')
          case None =>
          case Some(k) => name := name[k + 1..];
        }
        cwdName := name;
      }
    }

    method ExecuteExpression(stage: Stage, env: Env) returns (effect: Effect)
      requires |stage| >= 1
      modifies this
      ensures (effect, cwdName) == Expression(stage, env, old(cwdName))
      ensures stdout == old(stdout)
    {
      if stage[0] == "cd" {
        if |stage| == 2 {
          effect := Cd(stage[1], env.chdir);
        } else {
          effect := CdUsageError;
        }
      } else if stage[0] == "exit" {
        if |stage| == 1 {
          effect := Exited;
        } else {
          effect := ExitUsageError;
        }
      } else {
        var spawned := RunExternalProgram(env.fs, env.path, stage);
        if spawned.None? {
          effect := NoProgram(stage[0]);
        } else {
          effect := Ran(spawned.value);
        }
      }
    }

    /** parseCommand; the line must fit the 1024-byte buffer it is copied
        into. */
    method ParseCommand(command: string, env: Env) returns (o: Outcome)
      requires |CStr(command)| < 1024
      modifies this
      ensures o == Step(command, env, old(State()))
      ensures State() == o.next
    {
      var toks := LineTokens(command);
      var r := ParseTokens(toks, env.openOk);
      match r
      case Failed(e, unrestored) =>
        if unrestored.Some? {
          stdout := File(unrestored.value);
        }
        o := Outcome(ParseFailed(e), stdout, State());
      case Parsed(stages, redirect) =>
        ParsedValid(toks, env.openOk);
        var saved := stdout;
        if redirect.Some? {
          stdout := File(redirect.value);
        }
        var effect;
        if |stages| > 1 {
          var plan := ExecutePipes(env.fs, env.path, stages);
          effect := match plan
            case Unresolved(n) => NoProgram(n)
            case Launched(pipes, children, closes) => Piped(pipes, children, closes);
        } else {
          effect := ExecuteExpression(stages[0], env);
        }
        var sink := stdout;
        stdout := saved;
        o := Outcome(effect, sink, State());
    }

    /** One pass of the interactive loop after the prompt: an empty line is
        skipped, any other is run. */
    method InteractiveLine(line: string, env: Env) returns (o: Option<Outcome>)
      requires |CStr(line)| < 1024
      modifies this
      ensures |line| == 0 ==> o.None? && State() == old(State())
      ensures |line| != 0 ==> o == Some(Step(line, env, old(State()))) && State() == o.value.next
    {
      o := None;
      if |line| != 0 {
        var outcome := ParseCommand(line, env);
        o := Some(outcome);
      }
    }

    /** executeFile: a file whose name fails the ".sh" check is refused with
        the extension error; otherwise its lines are run in order, until one
        exits the shell. */
    method ExecuteFile(fileName: string, lines: seq<string>, envs: seq<Env>) returns (refusal: Option<string>, outcomes: seq<Outcome>)
      requires |envs| == |lines|
      requires forall i :: 0 <= i < |lines| ==> |CStr(lines[i])| < 1024
      modifies this
      ensures refusal.Some? <==> !IsShScript(fileName)
      ensures refusal.Some? ==> refusal.value == NotShScriptText && outcomes == [] && State() == old(State())
      ensures refusal.None? ==> outcomes == Script(lines, envs, old(State()))
      ensures refusal.None? ==> State() == After(outcomes, old(State()))
    {
      outcomes := [];
      if !IsShScript(fileName) {
        return Some(NotShScriptText), [];
      }
      refusal := None;
      ghost var s0 := State();
      var i := 0;
      while i < |lines|
        invariant i <= |lines|
        invariant outcomes + Script(lines[i..], envs[i..], State()) == Script(lines, envs, s0)
        invariant State() == After(outcomes, s0)
      {
        ghost var before := State();
        var o := ParseCommand(lines[i], envs[i]);
        ScriptFrom(lines, envs, i, before, o);
        outcomes := outcomes + [o];
        if o.effect == Exited {
          return;
        }
        i := i + 1;
      }
    }
  }

  /** The state after a run of outcomes that started in `s`. */
  function After(outcomes: seq<Outcome>, s: ShellState): ShellState
  {
    if outcomes == [] then s else outcomes[|outcomes| - 1].next
  }

  lemma ScriptFrom(lines: seq<string>, envs: seq<Env>, i: nat, s: ShellState, o: Outcome)
    requires |envs| == |lines| && i < |lines|
    requires o == Step(lines[i], envs[i], s)
    ensures Script(lines[i..], envs[i..], s) ==
      if o.effect == Exited then [o] else [o] + Script(lines[i + 1..], envs[i + 1..], o.next)
  {
    assert lines[i..][0] == lines[i] && envs[i..][0] == envs[i];
    assert lines[i..][1..] == lines[i + 1..] && envs[i..][1..] == envs[i + 1..];
  }

  /** A redirection lasts for its own line only: after a line that parsed,
      standard output is back where it was, while the line's messages and
      programs wrote to the redirection's file. */
  lemma RedirectScoped(command: string, env: Env, s: ShellState)
    requires Parse(LineTokens(command), env.openOk).Parsed?
    ensures var p := Parse(LineTokens(command), env.openOk); var o := Step(command, env, s);
      o.next.stdout == s.stdout &&
      o.sink == (if p.redirect.Some? then File(p.redirect.value) else s.stdout)
  {
  }

  /** Standard output changes across a line only on the "no command after
      pipe character" error after a redirection had been applied: the file
      then keeps receiving the output of every later line. */
  lemma OnlyTrailingPipeLeaks(command: string, env: Env, s: ShellState)
    ensures var o := Step(command, env, s);
      o.next.stdout != s.stdout ==>
        exists r :: Parse(LineTokens(command), env.openOk) == Failed(NoCommandAfterPipe, Some(r)) &&
          o.next.stdout == File(r)
  {
    var p := Parse(LineTokens(command), env.openOk);
    if p.Failed? && p.unrestored.Some? {
      assert p.error == NoCommandAfterPipe by {
        assert Parse(LineTokens(command), env.openOk) == Finish(LineTokens(command), env.openOk) ||
               Parse(LineTokens(command), env.openOk) == Failed(NoPipeInput, None);
      }
    }
  }

  /** A pipeline ended by "| > file" (or ">>") leaves the shell's output in
      that file. */
  lemma PipeThenRedirectLeaks(command: string, env: Env, s: ShellState, stages: seq<Stage>, op: Token, target: Token)
    requires WellFormed(stages) && IsRedirectOp(op) && env.openOk
    requires LineTokens(command) == Join(stages) + ["|", op, target]
    ensures Step(command, env, s).effect == ParseFailed(NoCommandAfterPipe)
    ensures Step(command, env, s).next == ShellState(s.cwd, File(Redirect(ModeOf(op), target)))
  {
    TrailingPipe(stages, [op, target], env.openOk);
    assert Join(stages) + ["|"] + [op, target] == Join(stages) + ["|", op, target];
  }

  /** Only a successful lone `cd` with one argument changes the prompt's
      name, and then to the display name of what getcwd reports. */
  lemma CwdOnlyByCd(command: string, env: Env, s: ShellState)
    ensures var p := Parse(LineTokens(command), env.openOk); var o := Step(command, env, s);
      o.next.cwd != s.cwd ==>
        p.Parsed? && |p.stages| == 1 && |p.stages[0]| == 2 && p.stages[0][0] == "cd" &&
        env.chdir.Entered? && env.chdir.cwd.Some? && o.next.cwd == DisplayName(env.chdir.cwd.value)
  {
    var toks := LineTokens(command);
    var p := Parse(toks, env.openOk);
    if p.Parsed? {
      ParsedShape(toks, env.openOk);
    }
  }

  /** Of the stages of a parsed line, only `exit` alone exits. */
  lemma RunExits(stages: seq<Stage>, env: Env, cwd: string)
    requires ValidStages(stages)
    ensures Run(stages, env, cwd).0 == Exited <==> stages == [["exit"]]
  {
    if |stages| > 1 {
      assert PipelineEffect(env.fs, env.path, stages) != Exited;
    } else {
      assert stages == [stages[0]];
    }
  }

  /** The shell exits exactly on a line that is `exit` alone, possibly
      redirected; "exit" inside a pipeline is looked up as a program. */
  lemma ExitOnlyAlone(command: string, env: Env, s: ShellState)
    ensures var p := Parse(LineTokens(command), env.openOk);
      Step(command, env, s).effect == Exited <==> p.Parsed? && p.stages == [["exit"]]
  {
    var toks := LineTokens(command);
    var p := Parse(toks, env.openOk);
    if p.Parsed? {
      ParsedShape(toks, env.openOk);
      RunExits(p.stages, env, s.cwd);
    }
  }

  /** Built-ins are recognised for a single stage only: in a pipeline every
      stage, `cd` and `exit` included, is a program to be found, and the
      prompt's name is unchanged. */
  lemma PipelineHasNoBuiltins(command: string, env: Env, s: ShellState)
    requires var p := Parse(LineTokens(command), env.openOk); p.Parsed? && |p.stages| > 1
    ensures var p := Parse(LineTokens(command), env.openOk); var o := Step(command, env, s);
      ValidStages(p.stages) && o.next.cwd == s.cwd &&
      (o.effect.Piped? || o.effect.NoProgram?) &&
      (o.effect.Piped? <==> forall i :: 0 <= i < |p.stages| ==> Resolve(env.fs, env.path, p.stages[i][0]).Some?)
  {
    var toks := LineTokens(command);
    var p := Parse(toks, env.openOk);
    ParsedShape(toks, env.openOk);
    ValidateBeforeLaunch(env.fs, env.path, p.stages);
  }

  /** However each line acts, a run of lines yields at most one outcome per
      line, stops right after the first exit, and otherwise covers every
      line. */
  lemma {:induction false} RunStopsAtExit(step: (string, Env, ShellState) -> Outcome, lines: seq<string>, envs: seq<Env>, s: ShellState)
    requires |envs| == |lines|
    ensures var os := RunLines(step, lines, envs, s);
      |os| <= |lines| &&
      (forall i :: 0 <= i < |os| - 1 ==> os[i].effect != Exited) &&
      (|os| < |lines| ==> os != [] && os[|os| - 1].effect == Exited)
  {
    if lines != [] {
      var o := step(lines[0], envs[0], s);
      if o.effect != Exited {
        RunStopsAtExit(step, lines[1..], envs[1..], o.next);
        var rest := RunLines(step, lines[1..], envs[1..], o.next);
        var os := [o] + rest;
        assert RunLines(step, lines, envs, s) == os;
        forall i | 0 <= i < |os| - 1 ensures os[i].effect != Exited {
          if i > 0 {
            assert os[i] == rest[i - 1];
          }
        }
      }
    }
  }

  /** A script runs at most one line per line of the file, stops right
      after the first line that exits, and otherwise runs every line. */
  lemma ScriptStopsAtExit(lines: seq<string>, envs: seq<Env>, s: ShellState)
    requires |envs| == |lines|
    ensures var os := Script(lines, envs, s);
      |os| <= |lines| &&
      (forall i :: 0 <= i < |os| - 1 ==> os[i].effect != Exited) &&
      (|os| < |lines| ==> os != [] && os[|os| - 1].effect == Exited)
  {
    RunStopsAtExit(Step, lines, envs, s);
  }
}
