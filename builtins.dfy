/** The shell's own commands and the name checks around them: which stages
    executeExpression treats as built-ins, the directory name shown in the
    prompt after `cd`, and the extension test on a script file name. */
module Builtins {
  import opened Basics
  import opened Parser

  /** What executeExpression does with a single stage. */
  datatype Action =
    | ChangeDir(path: string)
    | CdUsage
    | Exit
    | ExitUsage
    | External

  /** `cd` takes exactly one argument and `exit` none; any other first token
      names an external program.  A built-in name with the wrong number of
      arguments is a usage error, never a program lookup. */
  function Classify(stage: Stage): (a: Action)
    requires |stage| >= 1
    ensures a.ChangeDir? <==> stage[0] == "cd" && |stage| == 2
    ensures a.ChangeDir? ==> a.path == stage[1]
    ensures a == CdUsage <==> stage[0] == "cd" && |stage| != 2
    ensures a == Exit <==> stage == ["exit"]
    ensures a == ExitUsage <==> stage[0] == "exit" && |stage| != 1
    ensures a == External <==> stage[0] != "cd" && stage[0] != "exit"
  {
    if stage[0] == "cd" then
      (if |stage| == 2 then ChangeDir(stage[1]) else CdUsage)
    else if stage[0] == "exit" then
      (if |stage| == 1 then Exit else ExitUsage)
    else External
  }

  /** The name shown in the prompt for the working directory `cwd` reported
      by getcwd: "/" itself, otherwise the text after the last '/'. */
  function DisplayName(cwd: string): (r: string)
    ensures cwd == "/" ==> r == "/"
    ensures cwd != "/" ==> |r| <= |cwd| && '/' !in r && r == cwd[|cwd| - |r|..]
    ensures cwd != "/" && '/' in cwd ==> |r| < |cwd| && cwd == cwd[..|cwd| - |r| - 1] + "/" + r
    ensures '/' !in cwd ==> r == cwd
  {
    if cwd == "/" then "/"
    else match LastIndexOf(cwd, '/')
      case None => cwd
      case Some(k) =>
        var r := cwd[k + 1..];
        assert '/' !in r by {
          forall j | 0 <= j < |r| ensures r[j] != '/' {
            assert r[j] == cwd[k + 1 + j];
          }
        }
        assert cwd == cwd[..k] + "/" + r;
        r
  }

  /** executeFile's check: the text after the last '.' (the whole name when
      there is none) must be "sh". */
  function IsShScript(fileName: string): bool
  {
    var start := match LastIndexOf(fileName, '.')
      case None => 0
      case Some(k) => k + 1;
    fileName[start..] == "sh"
  }

  /** A script is accepted exactly when its name ends in ".sh" or is "sh"
      itself, the latter because the search for '.' fails and the whole name
      is compared. */
  lemma ShExtension(fileName: string)
    ensures IsShScript(fileName) <==>
      fileName == "sh" || (|fileName| >= 3 && fileName[|fileName| - 3..] == ".sh")
  {
    var n := |fileName|;
    match LastIndexOf(fileName, '.')
    case None =>
      if n >= 3 {
        assert fileName[n - 3..][0] == fileName[n - 3];
      }
    case Some(k) =>
      if n >= 3 && fileName[n - 3..] == ".sh" {
        assert fileName[n - 3] == '.' && fileName[n - 2] == 's' && fileName[n - 1] == 'h';
      }
      if fileName[k + 1..] == "sh" {
        assert fileName[n - 3..] == [fileName[k]] + fileName[k + 1..];
      }
  }

  const CdUsageText: string := "cd: invalid arguments"
  const ExitUsageText: string := "exit takes no arguments"
  const NotShScriptText: string := "Error: input file must use the '.sh' extension"

  function NoDirectoryText(pathName: string): string
  {
    "cd: No directory with the name '" + pathName + "' exists"
  }

  function NoProgramText(name: string): string
  {
    "No program with the name '" + name + "' exists"
  }
}
