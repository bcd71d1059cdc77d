/** Starting programs: the argument vector handed to execv (createProcess),
    what a single external command runs (runExternalProgram), and the plan
    of a pipeline (executePipes): which pipe descriptor each forked stage
    reads and writes, which descriptors it closes, and what it executes.
    The system calls themselves are not modelled; a descriptor is named by
    its slot in the shell's `pipes` array, where pipe k occupies slot 2k
    (its read end) and slot 2k+1 (its write end). */
module Process {
  import opened Basics
  import opened Parser
  import opened Resolver

  /** An execv call: the file executed and the NULL-terminated argv. */
  datatype Exec = Exec(program: string, argv: seq<Option<string>>)

  /** The argv of a stage: its tokens, then the NULL terminator. */
  function Argv(stage: Stage): seq<Option<string>>
  {
    seq(|stage| + 1, i requires 0 <= i <= |stage| => if i < |stage| then Some(stage[i]) else None)
  }

  /** createProcess: fills the argument array from the stage's tokens in
      order and terminates it with NULL; argv[0] is the name as typed even
      when the file executed is a PATH candidate. */
  method CreateProcess(progName: string, stage: Stage) returns (e: Exec)
    ensures e.program == progName
    ensures |e.argv| == |stage| + 1 && e.argv[|stage|] == None
    ensures forall i :: 0 <= i < |stage| ==> e.argv[i] == Some(stage[i])
    ensures e.argv == Argv(stage)
  {
    var args := new Option<string>[|stage| + 1];
    var i := 0;
    while i < |stage|
      invariant 0 <= i <= |stage|
      invariant forall j :: 0 <= j < i ==> args[j] == Some(stage[j])
    {
      args[i] := Some(stage[i]);
      i := i + 1;
    }
    args[|stage|] := None;
    e := Exec(progName, args[..]);
  }

  /** The file a forked stage executes: runProgFromPath's candidate when
      PATH yields one, otherwise the name as typed. */
  function ExecTarget(fs: FileSystem, path: Option<string>, name: string): string
  {
    match FirstInPath(fs, path, name)
    case Some(c) => c
    case None => name
  }

  /** runExternalProgram: when the name resolves, one child is forked and
      executes the resolved file with the stage as its argv; otherwise
      nothing is started (the C++ falls off the end, taken as false) and
      the caller reports the missing program. */
  method RunExternalProgram(fs: FileSystem, path: Option<string>, stage: Stage) returns (spawned: Option<Exec>)
    requires |stage| >= 1
    ensures spawned.None? <==> Resolve(fs, path, stage[0]).None?
    ensures spawned.Some? ==> spawned.value == Exec(Resolve(fs, path, stage[0]).value, Argv(stage))
  {
    spawned := None;
    var progName := stage[0];
    var inPath := CheckPath(fs, path, stage[0]);
    if inPath {
      var search := RunProgFromPath(fs, path, stage[0]);
      if search.FoundAt? {
        var e := CreateProcess(search.candidate, stage);
        spawned := Some(e);
      }
    } else if ProgExists(fs, progName) {
      var e := CreateProcess(progName, stage);
      spawned := Some(e);
    }
  }

  /** Pipe k: its read end and its write end. */
  function ReadEnd(k: nat): nat { 2 * k }
  function WriteEnd(k: nat): nat { 2 * k + 1 }

  /** The slot stage i of n reads from, if any. */
  function InSlot(i: nat): Option<nat>
  {
    if i != 0 then Some((i - 1) * 2) else None
  }

  /** The slot stage i of n writes to, if any. */
  function OutSlot(i: nat, n: nat): Option<nat>
  {
    if i + 1 != n then Some(i * 2 + 1) else None
  }

  /** Every slot of the `pipes` array, in order. */
  function AllSlots(count: nat): seq<nat>
  {
    seq(count, j => j)
  }

  /** One forked stage: the slot duplicated onto its standard input and
      output (None: inherited from the shell), the slots it closes
      afterwards, whether its PATH search reports "Error accessing PATH
      variable" before falling back to the name as typed, and what it
      executes. */
  datatype Child = Child(stdin: Option<nat>, stdout: Option<nat>, closes: seq<nat>, pathError: bool, exec: Exec)

  /** executePipes either reports the first stage whose program does not
      exist, before any pipe is created, or creates `pipes` pipes and forks
      the children in stage order, closing `parentCloses` afterwards. */
  datatype Plan =
    | Unresolved(name: string)
    | Launched(pipes: nat, children: seq<Child>, parentCloses: seq<nat>)

  predicate Resolvable(fs: FileSystem, path: Option<string>, stage: Stage)
    requires |stage| >= 1
  {
    Resolve(fs, path, stage[0]).Some?
  }

  predicate ValidStages(stages: seq<Stage>)
  {
    |stages| >= 1 && forall i :: 0 <= i < |stages| ==> |stages[i]| >= 1
  }

  /** The first stage, from `from` on, whose program cannot be found. */
  function FirstUnresolvable(fs: FileSystem, path: Option<string>, stages: seq<Stage>, from: nat): (r: Option<nat>)
    requires ValidStages(stages) && from <= |stages|
    ensures r.Some? ==> from <= r.value < |stages| && !Resolvable(fs, path, stages[r.value])
    ensures r.Some? ==> forall j :: from <= j < r.value ==> Resolvable(fs, path, stages[j])
    ensures r.None? ==> forall j :: from <= j < |stages| ==> Resolvable(fs, path, stages[j])
    decreases |stages| - from
  {
    if from == |stages| then None
    else if !Resolvable(fs, path, stages[from]) then Some(from)
    else FirstUnresolvable(fs, path, stages, from + 1)
  }

  /** The child forked for stage i of a pipeline of n stages. */
  function ChildOf(fs: FileSystem, path: Option<string>, stages: seq<Stage>, i: nat): Child
    requires ValidStages(stages) && i < |stages|
  {
    var n := |stages|;
    Child(InSlot(i), OutSlot(i, n), AllSlots(2 * (n - 1)), path.None?,
          Exec(ExecTarget(fs, path, stages[i][0]), Argv(stages[i])))
  }

  /** What executePipes does with the stages. */
  function PipelinePlan(fs: FileSystem, path: Option<string>, stages: seq<Stage>): Plan
    requires ValidStages(stages)
  {
    var n := |stages|;
    match FirstUnresolvable(fs, path, stages, 0)
    case Some(i) => Unresolved(stages[i][0])
    case None =>
      Launched(n - 1, seq(n, i requires 0 <= i < n => ChildOf(fs, path, stages, i)), AllSlots(2 * (n - 1)))
  }

  /** The loop that closes every slot of the `pipes` array, in a child or in
      the parent. */
  method CloseAll(numPipeStreams: nat) returns (closed: seq<nat>)
    ensures |closed| == numPipeStreams
    ensures forall j :: 0 <= j < numPipeStreams ==> closed[j] == j
  {
    closed := [];
    var j := 0;
    while j < numPipeStreams
      invariant j <= numPipeStreams
      invariant |closed| == j && forall m :: 0 <= m < j ==> closed[m] == m
    {
      closed := closed + [j];
      j := j + 1;
    }
  }

  /** One iteration of executePipes' fork loop: the child for stage i of
      n, with its pipe ends, its closes and the program it executes. */
  method ForkStage(fs: FileSystem, path: Option<string>, stages: seq<Stage>, i: nat) returns (child: Child)
    requires ValidStages(stages) && i < |stages|
    ensures child == ChildOf(fs, path, stages, i)
  {
    var numProcesses := |stages|;
    var numPipeStreams := (numProcesses - 1) * 2;
    var stdin := if i != 0 then Some((i - 1) * 2) else None;
    var stdout := if i != numProcesses - 1 then Some(i * 2 + 1) else None;
    var closes := CloseAll(numPipeStreams);
    assert closes == AllSlots(numPipeStreams);
    var search := RunProgFromPath(fs, path, stages[i][0]);
    var e;
    if search.FoundAt? {
      e := CreateProcess(search.candidate, stages[i]);
    } else {
      e := CreateProcess(stages[i][0], stages[i]);
    }
    child := Child(stdin, stdout, closes, search == NoPathVariable, e);
  }

  lemma LaunchedPlan(fs: FileSystem, path: Option<string>, stages: seq<Stage>, children: seq<Child>)
    requires ValidStages(stages)
    requires FirstUnresolvable(fs, path, stages, 0).None?
    requires |children| == |stages|
    requires forall j :: 0 <= j < |stages| ==> children[j] == ChildOf(fs, path, stages, j)
    ensures PipelinePlan(fs, path, stages) == Launched(|stages| - 1, children, AllSlots((|stages| - 1) * 2))
  {
    var n := |stages|;
    assert children == seq(n, i requires 0 <= i < n => ChildOf(fs, path, stages, i));
  }

  /** executePipes: every stage is checked before anything is created; then
      the children are forked in stage order, each wired to its neighbours'
      pipes, closing every descriptor and executing its program; the parent
      closes every descriptor too. */
  method ExecutePipes(fs: FileSystem, path: Option<string>, stages: seq<Stage>) returns (plan: Plan)
    requires ValidStages(stages)
    ensures plan == PipelinePlan(fs, path, stages)
  {
    var i := 0;
    while i < |stages|
      invariant i <= |stages|
      invariant FirstUnresolvable(fs, path, stages, i) == FirstUnresolvable(fs, path, stages, 0)
    {
      var inPath := CheckPath(fs, path, stages[i][0]);
      if !inPath && !ProgExists(fs, stages[i][0]) {
        assert FirstUnresolvable(fs, path, stages, i) == Some(i);
        return Unresolved(stages[i][0]);
      }
      i := i + 1;
    }
    var numProcesses := |stages|;
    var numPipes := numProcesses - 1;
    var numPipeStreams := numPipes * 2;
    var children: seq<Child> := [];
    i := 0;
    while i < numProcesses
      invariant i <= numProcesses
      invariant |children| == i
      invariant forall j :: 0 <= j < i ==> children[j] == ChildOf(fs, path, stages, j)
    {
      var child := ForkStage(fs, path, stages, i);
      children := children + [child];
      i := i + 1;
    }
    var parentCloses := CloseAll(numPipeStreams);
    assert parentCloses == AllSlots(numPipeStreams);
    LaunchedPlan(fs, path, stages, children);
    plan := Launched(numPipes, children, parentCloses);
  }

  /** Every stage is checked before any pipe is created: the pipeline is
      launched exactly when every stage's program can be found, and
      otherwise the first missing one is reported and nothing is started. */
  lemma ValidateBeforeLaunch(fs: FileSystem, path: Option<string>, stages: seq<Stage>)
    requires ValidStages(stages)
    ensures PipelinePlan(fs, path, stages).Launched? <==>
            forall i :: 0 <= i < |stages| ==> Resolvable(fs, path, stages[i])
    ensures PipelinePlan(fs, path, stages).Unresolved? ==>
            exists i :: 0 <= i < |stages| && !Resolvable(fs, path, stages[i]) &&
              PipelinePlan(fs, path, stages).name == stages[i][0] &&
              forall j :: 0 <= j < i ==> Resolvable(fs, path, stages[j])
  {
    var r := FirstUnresolvable(fs, path, stages, 0);
    if r.Some? {
      assert !Resolvable(fs, path, stages[r.value]);
    }
  }

  /** The wiring of a launched pipeline of n stages: n - 1 pipes and n
      children; the first stage reads the shell's input and the last writes
      the shell's output; for every i < n - 1, stage i writes the write end
      of pipe i and stage i + 1 reads the read end of the same pipe. */
  lemma PipelineWiring(fs: FileSystem, path: Option<string>, stages: seq<Stage>)
    requires ValidStages(stages)
    requires PipelinePlan(fs, path, stages).Launched?
    ensures var p := PipelinePlan(fs, path, stages); var n := |stages|;
      p.pipes == n - 1 && |p.children| == n &&
      p.children[0].stdin == None && p.children[n - 1].stdout == None &&
      forall i :: 0 <= i < n - 1 ==>
        p.children[i].stdout == Some(WriteEnd(i)) && p.children[i + 1].stdin == Some(ReadEnd(i))
  {
  }

  /** Each pipe has exactly one writer, the stage before it, and exactly one
      reader, the stage after it; every slot a stage uses lies within the
      array. */
  lemma OneWriterOneReader(fs: FileSystem, path: Option<string>, stages: seq<Stage>)
    requires ValidStages(stages)
    requires PipelinePlan(fs, path, stages).Launched?
    ensures var p := PipelinePlan(fs, path, stages); var n := |stages|;
      forall i, k :: 0 <= i < n && 0 <= k < n - 1 ==>
        (p.children[i].stdout == Some(WriteEnd(k)) <==> i == k) &&
        (p.children[i].stdin == Some(ReadEnd(k)) <==> i == k + 1)
    ensures var p := PipelinePlan(fs, path, stages); var n := |stages|;
      forall i :: 0 <= i < n ==>
        (p.children[i].stdin.Some? ==> p.children[i].stdin.value < 2 * (n - 1)) &&
        (p.children[i].stdout.Some? ==> p.children[i].stdout.value < 2 * (n - 1))
  {
  }

  /** Every descriptor of every pipe is closed in every child, after it has
      duplicated its own ends, and in the parent. */
  lemma AllDescriptorsClosed(fs: FileSystem, path: Option<string>, stages: seq<Stage>)
    requires ValidStages(stages)
    requires PipelinePlan(fs, path, stages).Launched?
    ensures var p := PipelinePlan(fs, path, stages); var n := |stages|;
      forall k :: 0 <= k < n - 1 ==>
        ReadEnd(k) in p.parentCloses && WriteEnd(k) in p.parentCloses &&
        forall i :: 0 <= i < n ==> ReadEnd(k) in p.children[i].closes && WriteEnd(k) in p.children[i].closes
  {
    var n := |stages|;
    var slots := AllSlots(2 * (n - 1));
    forall k | 0 <= k < n - 1
      ensures ReadEnd(k) in slots && WriteEnd(k) in slots
    {
      assert slots[ReadEnd(k)] == ReadEnd(k);
      assert slots[WriteEnd(k)] == WriteEnd(k);
    }
  }

  /** Each child executes its stage's resolved program, with the stage as
      its argv and the name as typed in argv[0]. */
  lemma ChildrenRunTheirStage(fs: FileSystem, path: Option<string>, stages: seq<Stage>)
    requires ValidStages(stages)
    requires PipelinePlan(fs, path, stages).Launched?
    ensures var p := PipelinePlan(fs, path, stages);
      forall i :: 0 <= i < |stages| ==>
        Some(p.children[i].exec.program) == Resolve(fs, path, stages[i][0]) &&
        p.children[i].exec.argv == Argv(stages[i]) &&
        p.children[i].exec.argv[0] == Some(stages[i][0])
  {
    ValidateBeforeLaunch(fs, path, stages);
  }
}
