# A verified model of a small Unix command shell

The shell (`shell.cpp`) reads command lines interactively or from a `.sh`
script. Each line is processed as follows:

- It is cut into tokens on spaces and newlines.
- It is grouped into pipeline stages separated by `|`.
- It may end in one output redirection, `> file` (overwrite) or `>> file`
  (append).
- A single stage is dispatched as follows:
  - `cd` and `exit` are built-in commands;
  - any other first token names a program, looked up first in the
    directories of `PATH` and then as a path in its own right.
- Several stages are started as children joined by pipes.

This project models that logic in Dafny and proves what it promises. The
operating-system calls it triggers appear only as the decisions the shell
makes: which program is executed with which argument vector, which pipe
descriptor each child reads and writes, and which descriptors it closes.

Modules:

- `Basics`: the option type, flattening, `find_last_of` for one character,
  and the text that `c_str()` hands to C routines (everything before the
  first NUL).
- `Strtok`: strtok(3) as a function returning the maximal non-empty runs of
  non-delimiters. Proved:
  - the tokens are non-empty and free of delimiters;
  - together they hold exactly the non-delimiter text;
  - joining tokens with a delimiter and splitting again gives the tokens
    back.
- `Parser`: `parseCommand`'s token loop (`ParseTokens`), proved equal to a
  declarative specification (`Parse`). Proved about the specification:
  - the shape of a successful parse;
  - a round trip from stages to tokens and back;
  - each of the five error outcomes, with the shell's exact messages.
- `Resolver`: `progExists`, `checkPath` and `runProgFromPath` over a file
  system given as a map from path names to file kinds. Proved: the search
  order.
- `Process`: `createProcess`'s argument vector, `runExternalProgram`, and
  `executePipes`' validation and descriptor plan, with lemmas on the pipe
  wiring.
- `Builtins`: the built-in dispatch of `executeExpression`, the prompt name
  `cd` derives from getcwd, and the `.sh` test of `executeFile`.
- `Shell`: a class holding the shell's two pieces of global state, the
  prompt's directory name and where standard output currently goes. Its
  methods are `parseCommand`, `executeExpression`, `cd`, one interactive
  line and `executeFile`. Each is proved equal to a function of the line
  and the old state (`Step`, `Script`). Lemmas about that function say
  what one line can change.

Sources of outside information are parameters:

- the file system (`FileSystem`);
- the `PATH` variable (`Option<string>`, None when unset);
- whether `fopen` of the redirection target succeeds (`openOk`);
- what `chdir` and `getcwd` report for a `cd` (`Chdir`);
- the lines of a script file (`lines`).

## Model

| member | source | states |
|---|---|---|
| Basics.CStr | shell.cpp:114-116 | the line strtok sees is the longest NUL-free prefix of the string |
| Basics.LastIndexOf | shell.cpp:89 | find_last_of: None exactly when the character is absent; otherwise the index holds it and no later index does |
| Strtok.SplitTokens | shell.cpp:116-118 | every token strtok yields is non-empty and contains no delimiter |
| Strtok.SplitKeepsText | shell.cpp:116-118 | the tokens concatenated are the text with the delimiters removed |
| Strtok.ScanAtDelimiter | shell.cpp:116-187 | a delimiter always ends a token; the text after it is split independently |
| Strtok.SplitJoin | shell.cpp:116-187 | tokens joined by a delimiter split back into the same tokens, so tokens are maximal runs |
| Parser.RedirectIndex | shell.cpp:133 | the position of the first token that is exactly ">" or ">>", or the end of the line |
| Parser.ParseTokens | shell.cpp:106-197 | the strtok loop of parseCommand returns exactly the declarative result Parse on the tokens |
| Parser.CollectStages | shell.cpp:118-187 | the token loop stops at the end of the line or at the first ">" or ">>", with no "\|" before it meeting an empty open stage and the closed stages plus the open one being exactly the grouping of the tokens read; or it stops at the first "\|" that meets an empty open stage, before any redirection operator |
| Parser.ParseRedirect | shell.cpp:133-181 | the redirection is opened exactly when one file name follows the operator and fopen succeeds, truncating for ">" and appending for ">>"; otherwise the matching error: no name, too many arguments, or the name that could not be opened |
| Parser.GroupsToPrefix | shell.cpp:118-187 | the stages the loop builds token by token are the grouping of the tokens read so far |
| Parser.ParsedShape | shell.cpp:118-197 | a parse that succeeds yields at least one stage, none empty and none holding "\|"; the stages concatenated are the operands before the redirect operator, in order; the tokens are exactly the stages joined by "\|" plus the redirection |
| Parser.UnparseParse | shell.cpp:118-197 | every well-formed pipeline, with or without a redirection, is parsed back from its own tokens |
| Parser.NoPipeInputIff | shell.cpp:120-131 | the parse fails with "no command given as pipe input" exactly when a "\|" before the redirect meets no pending tokens |
| Parser.NoEmptyPipeIff | shell.cpp:120-131 | no "\|" meets an empty current stage exactly when every stage closed by a "\|" is non-empty |
| Parser.RedirectTakesOneFile | shell.cpp:133-180 | after the redirect operator: no token gives "no filename given", two or more give "too many arguments", one gives the file, with ">" truncating and ">>" appending, or "No file with the name" when it cannot be opened |
| Parser.TrailingPipe | shell.cpp:189-193 | a line ending in "\|", or in "\| > file", fails with "no command after pipe character"; in the second case the redirection has already been applied and stays unrestored |
| Parser.BlankLine | shell.cpp:116-193 | a line made only of spaces and newlines has no tokens and fails with "no command after pipe character" |
| Parser.GluedOperatorIsOperand | shell.cpp:120-133 | any non-empty line of tokens none of which is exactly "\|", ">" or ">>" parses as a single stage holding all of them, with no redirection: an operator character inside a longer token is an ordinary operand |
| Parser.GroupsJoin | shell.cpp:120-131 | the stages joined again by "\|" give back the tokens they came from |
| Parser.JoinGroups | shell.cpp:120-131 | pipe-free stages joined by "\|" are grouped back into the same stages |
| Parser.FlattenGroups | shell.cpp:120-184 | the stages concatenated are the non-"\|" tokens, in order |
| Resolver.ProgExists | shell.cpp:431-452 | the mode is tested for the directory bit and then the regular-file bit; a name counts as a program exactly when it exists and is a regular file, so directories, block devices and sockets (which carry the directory bit), character devices and FIFOs are all rejected |
| Resolver.PathDirs | shell.cpp:456-480 | no directories when PATH is unset; every directory is non-empty and free of ':' |
| Resolver.FirstHit | shell.cpp:466-480 | the first PATH directory holding the program as a regular file; none before it does |
| Resolver.CheckPath | shell.cpp:456-483 | checkPath succeeds exactly when some PATH directory holds the name as a regular file, and never when PATH is unset |
| Resolver.RunProgFromPath | shell.cpp:286-314 | an unset PATH is reported; otherwise the candidate chosen is the first PATH directory holding the program |
| Resolver.Resolve | shell.cpp:254-281 | a resolved program is a regular file; nothing is found exactly when neither PATH nor the literal name yields one; a PATH hit always wins |
| Resolver.ResolutionOrder | shell.cpp:254-281 | resolution succeeds exactly when some PATH candidate or the name itself is a regular file; the earliest PATH directory is chosen; with PATH unset only the name itself is tried |
| Resolver.PathShadowsLiteral | shell.cpp:254-281 | when a PATH directory holds the program, the literal name is never what runs |
| Process.CreateProcess | shell.cpp:318-330 | the argument vector is the stage's tokens in order followed by NULL, with argv[0] the name as typed; the file executed is the name given |
| Process.RunExternalProgram | shell.cpp:251-282 | a child is started exactly when the name resolves, and it executes the resolved file with the stage as its arguments |
| Process.FirstUnresolvable | shell.cpp:338-349 | the first stage whose program cannot be found; every stage before it can be |
| Process.CloseAll | shell.cpp:395-398 | the closing loop closes every slot of the pipe array, in order |
| Process.ForkStage | shell.cpp:372-408 | one fork iteration: the stage's input and output slots, the slots it closes and the program it runs |
| Process.ExecutePipes | shell.cpp:334-419 | executePipes produces exactly the plan PipelinePlan: the first unresolvable stage, or the children and the parent's closes |
| Process.ValidateBeforeLaunch | shell.cpp:338-349 | the pipeline is launched exactly when every stage resolves; otherwise the first unresolvable stage is reported and nothing is created |
| Process.PipelineWiring | shell.cpp:352-392 | N stages use N-1 pipes; the first stage reads the shell's input and the last writes the shell's output; stage i writes pipe i and stage i+1 reads the same pipe |
| Process.OneWriterOneReader | shell.cpp:376-392 | each pipe has exactly one writer, the stage before it, and exactly one reader, the stage after it; every slot lies within the array |
| Process.AllDescriptorsClosed | shell.cpp:395-419 | every descriptor of every pipe is closed by each child and by the parent |
| Process.ChildrenRunTheirStage | shell.cpp:400-407 | each child executes its stage's resolved program with the stage as argv and the typed name as argv[0] |
| Builtins.Classify | shell.cpp:218-246 | cd acts only with exactly one argument and exit only with none; otherwise the usage error; any other first token goes to external dispatch |
| Builtins.DisplayName | shell.cpp:492-499 | "/" is shown as "/"; any other directory by the text after its last '/', which contains no '/' and is the tail of the path |
| Builtins.ShExtension | shell.cpp:89 | a script is accepted exactly when its name ends in ".sh" or is "sh" itself |
| Shell.Message | shell.cpp:128-245 | exactly the error outcomes print a message, with the shell's own text |
| Shell.Shell.constructor | shell.cpp:59-69 | the session starts showing the user's name, with output on the terminal |
| Shell.Shell.Cd | shell.cpp:487-505 | a failed chdir reports the missing directory and keeps the name; a successful one shows the new directory's display name, or keeps the old name when getcwd fails |
| Shell.Shell.ExecuteExpression | shell.cpp:216-247 | a single stage runs as built-in or external program exactly as Expression says, and standard output is untouched |
| Shell.Shell.ParseCommand | shell.cpp:106-212 | one line changes the state exactly as Step says: parse errors are reported, and a redirection is applied for the line and then restored, except on the trailing-pipe error |
| Shell.Shell.InteractiveLine | shell.cpp:73-81 | an empty line is skipped; any other line is run |
| Shell.Shell.ExecuteFile | shell.cpp:87-102 | a name failing the ".sh" test is refused with the extension error and nothing runs; otherwise the lines run in order as Script says and the state is the last line's |
| Shell.RedirectScoped | shell.cpp:166-211 | after a line that parsed, standard output is back where it was, and the line's output went to the redirection's file |
| Shell.OnlyTrailingPipeLeaks | shell.cpp:189-211 | standard output changes across a line only through "no command after pipe character" after a redirection was applied |
| Shell.PipeThenRedirectLeaks | shell.cpp:133-193 | "stages \| > file" leaves the shell's own output in the file for the rest of the session |
| Shell.CwdOnlyByCd | shell.cpp:216-225 | only a lone `cd` with one argument that succeeds changes the prompt's name, to the display name of the new directory |
| Shell.ExitOnlyAlone | shell.cpp:199-233 | the shell exits exactly on a line that is `exit` alone, possibly redirected |
| Shell.PipelineHasNoBuiltins | shell.cpp:199-206 | in a pipeline `cd` and `exit` are programs to be found like any other; the pipeline runs exactly when every stage resolves |
| Shell.RunExits | shell.cpp:199-233 | a parsed line exits exactly when it is the single stage `exit` with no arguments |
| Shell.RunStopsAtExit | shell.cpp:89-96 | whatever each line does, running the lines yields at most one outcome per line, nothing after the first exit, and every line when none exits |
| Shell.ScriptStopsAtExit | shell.cpp:89-96 | a script runs at most one outcome per line, stops right after the first line that exits, and otherwise runs every line |

## Left out

- Process creation and waiting are not modelled: fork, execv, waitpid and the errno/ECHILD wait loop (shell.cpp:420-426). A child is represented by what it would execute and how it would be wired.
- System-call failures are not modelled: pipe, dup2 and fork failing, with their `perror` and `_exit`, and execv failing, which ends in `_exit(EXIT_SUCCESS)`. Each is assumed to succeed.
- `pipe`, `dup`, `dup2`, `close`, `fopen`, `fclose`, `chdir`, `getcwd`, `access` and `stat` are replaced by the parameters listed above.
- Output text: the messages are given as strings (`Shell.Message`), but printing them is not modelled. Where they go is modelled as `Outcome.sink`.
- `main`, the prompt text, `getenv("USER")`, `gethostname`, and failing to enter the home directory are not modelled. The loop reading lines from the terminal or the script file is a parameter: the lines.
- In a pipeline, a child that finds nothing in PATH runs the name as typed. Validation already guarantees that the name exists as a file. The model assumes the file system does not change between validation and the fork.
- Memory-safety defects are not modelled:
  - each argument's copy in createProcess is one byte too short for its NUL (shell.cpp:323);
  - checkPath and runProgFromPath call `strlen` on the result of getenv before testing it for NULL (shell.cpp:289, 459). An unset PATH is modelled as the NULL test evidently intends.
- Shell.Shell.ParseCommand: requires the line's C string to be shorter than 1024 characters, the size of the buffer it is copied into with `strcpy`. A longer line overflows the buffer.
- Shell.Shell.ExecuteFile: requires every line of the script to fit that buffer, including lines after an `exit` that are never read.
- Functions that end without a return statement are taken to return false. These are progExists when stat fails or when the mode has neither the S_IFDIR nor the S_IFREG bit (a character device or a FIFO), runProgFromPath when no directory matches, and runExternalProgram when the name does not resolve.
- Resolver.ProgExists: a stat failure after a successful `access` is modelled as the object not being a regular file.
