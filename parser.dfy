/** The line parser of the shell (parseCommand): a command line is cut into
    tokens on spaces and newlines, the tokens are grouped into pipeline
    stages at "|", and a final "> file" or ">> file" selects where the
    pipeline's output goes.  `Parse` states declaratively what the parse of
    a token sequence is; `ParseTokens` is the token loop itself, proved to
    compute it. */
module Parser {
  import opened Basics
  import Strtok

  type Token = string

  /** One program invocation: the program name followed by its arguments. */
  type Stage = seq<Token>

  /** "w" (overwrite) for ">", "a+" (append) for ">>". */
  datatype Mode = Truncate | Append

  datatype Redirect = Redirect(mode: Mode, target: string)

  datatype ParseError =
    | NoPipeInput
    | NoFilename
    | TooManyRedirectArgs
    | CannotOpen(name: string)
    | NoCommandAfterPipe
  {
    /** The line the shell prints for the error. */
    function Text(): string
    {
      match this
      case NoPipeInput => "Error: no command given as pipe input"
      case NoFilename => "Error: no filename given after redirect character"
      case TooManyRedirectArgs => "Error: too many arguments after redirect character"
      case CannotOpen(name) => "No file with the name '" + name + "' exists"
      case NoCommandAfterPipe => "Error: no command after pipe character"
    }
  }

  /** A parse either yields the stages and the optional redirection, or an
      error.  `unrestored` is the redirection that had already been applied
      to the shell's own standard output when the error was found: the
      error path returns without putting standard output back. */
  datatype ParseResult =
    | Parsed(stages: seq<Stage>, redirect: Option<Redirect>)
    | Failed(error: ParseError, unrestored: Option<Redirect>)

  const Separators: set<char> := {' ', '\n'}

  /** The tokens strtok yields for the command line: the line is first
      copied as a C string, so it ends at the first NUL. */
  function LineTokens(command: string): seq<Token>
  {
    Strtok.Split(CStr(command), Separators)
  }

  predicate IsRedirectOp(t: Token)
  {
    t == ">" || t == ">>"
  }

  function ModeOf(op: Token): Mode
    requires IsRedirectOp(op)
  {
    if op == ">" then Truncate else Append
  }

  function OpToken(m: Mode): Token
  {
    match m
    case Truncate => ">"
    case Append => ">>"
  }

  /** The position of the first redirection operator, or |toks| if none. */
  function RedirectIndex(toks: seq<Token>): (k: nat)
    ensures k <= |toks|
    ensures forall j :: 0 <= j < k ==> !IsRedirectOp(toks[j])
    ensures k < |toks| ==> IsRedirectOp(toks[k])
  {
    if toks == [] || IsRedirectOp(toks[0]) then 0 else 1 + RedirectIndex(toks[1..])
  }

  /** The tokens grouped at every "|": the stages closed so far followed by
      the stage still being collected (the last group, possibly empty). */
  function Groups(ts: seq<Token>): (gs: seq<Stage>)
    ensures |gs| >= 1
    decreases |ts|
  {
    if ts == [] then [[]]
    else
      var g := Groups(ts[..|ts| - 1]);
      var t := ts[|ts| - 1];
      if t == "|" then g + [[]] else g[..|g| - 1] + [g[|g| - 1] + [t]]
  }

  /** No token is pending after reading the first `j` tokens. */
  predicate NothingPending(toks: seq<Token>, j: nat)
    requires j <= |toks|
  {
    var g := Groups(toks[..j]);
    g[|g| - 1] == []
  }

  /** The stages written back with "|" between them. */
  function Join(gs: seq<Stage>): seq<Token>
    requires |gs| >= 1
  {
    if |gs| == 1 then gs[0] else Join(gs[..|gs| - 1]) + ["|"] + gs[|gs| - 1]
  }

  /** The tokens of `ts` other than "|", in order. */
  function Operands(ts: seq<Token>): seq<Token>
    decreases |ts|
  {
    if ts == [] then []
    else Operands(ts[..|ts| - 1]) + (if ts[|ts| - 1] == "|" then [] else [ts[|ts| - 1]])
  }

  /** A "|" at position j with no command token in front of it. */
  /** One token of the loop: a "|" meets an empty pipe exactly when the open
      stage is empty, and otherwise closes it; an operand joins the open
      stage. */
  lemma CollectStep(toks: seq<Token>, i: nat, stages: seq<Stage>, expression: Stage)
    requires i < |toks| && !IsRedirectOp(toks[i])
    requires stages + [expression] == GroupsTo(toks, i)
    ensures toks[i] == "|" ==> (EmptyPipeAt(toks, i) <==> expression == [])
    ensures toks[i] == "|" ==> stages + [expression] + [[]] == GroupsTo(toks, i + 1)
    ensures toks[i] != "|" ==> !EmptyPipeAt(toks, i) && stages + [expression + [toks[i]]] == GroupsTo(toks, i + 1)
  {
    GroupsToLast(toks, i);
    var g := GroupsTo(toks, i);
    assert g[..|g| - 1] == stages && g[|g| - 1] == expression;
  }

  predicate EmptyPipeAt(ts: seq<Token>, j: nat)
    requires j < |ts|
  {
    ts[j] == "|" && (j == 0 || ts[j - 1] == "|")
  }

  /** What parseCommand makes of the tokens of a line.  The first error met
      left to right wins: a "|" with no command token in front of it, then
      the checks on the redirection, then the check that the last stage is
      not empty.  `openOk` says whether the target file can be opened. */
  ghost function Parse(toks: seq<Token>, openOk: bool): ParseResult
  {
    if exists j :: 0 <= j < RedirectIndex(toks) && EmptyPipeAt(toks, j) then Failed(NoPipeInput, None)
    else Finish(toks, openOk)
  }

  /** The rest of the parse once the stages before the redirection are free
      of empty pipe inputs: a redirection ends the scan and must be followed
      by exactly one token, and it is applied before the final check that
      the last stage is not empty. */
  function Finish(toks: seq<Token>, openOk: bool): ParseResult
  {
    var k := RedirectIndex(toks);
    if k + 1 == |toks| then Failed(NoFilename, None)
    else if k + 2 < |toks| then Failed(TooManyRedirectArgs, None)
    else if k < |toks| && !openOk then Failed(CannotOpen(toks[k + 1]), None)
    else
      var redirect := if k < |toks| then Some(Redirect(ModeOf(toks[k]), toks[k + 1])) else None;
      if k == 0 || toks[k - 1] == "|" then Failed(NoCommandAfterPipe, redirect)
      else Parsed(GroupsTo(toks, k), redirect)
  }

  /** The two tokens a redirection is written with. */
  function RedirectTokens(r: Option<Redirect>): seq<Token>
  {
    match r
    case None => []
    case Some(x) => [OpToken(x.mode), x.target]
  }

  /** A pipeline written back as tokens. */
  function Unparse(stages: seq<Stage>, redirect: Option<Redirect>): seq<Token>
    requires |stages| >= 1
  {
    Join(stages) + RedirectTokens(redirect)
  }

  /** Stages a line can spell: at least one, none empty, and no stage token
      that the parser would read as an operator. */
  predicate WellFormed(stages: seq<Stage>)
  {
    |stages| >= 1 &&
    forall i :: 0 <= i < |stages| ==> |stages[i]| > 0 && Plain(stages[i])
  }

  predicate Plain(stage: Stage)
  {
    forall j :: 0 <= j < |stage| ==> stage[j] != "|" && !IsRedirectOp(stage[j])
  }

  /** The outcome of a redirection operator: the file it sends output to,
      or the error that ends the line. */
  datatype Opened = Opened(redirect: Redirect) | NotOpened(error: ParseError)

  /** The redirection branch of parseCommand for the operator at `i`: the
      next token is the file name and there must be no token after it; the
      file is opened for writing (">") or appending (">>"). */
  method ParseRedirect(toks: seq<Token>, openOk: bool, i: nat) returns (o: Opened)
    requires i < |toks| && IsRedirectOp(toks[i])
    ensures o.Opened? <==> i + 2 == |toks| && openOk
    ensures o.Opened? ==> o.redirect == Redirect(if toks[i] == ">" then Truncate else Append, toks[i + 1])
    ensures i + 1 == |toks| ==> o == NotOpened(NoFilename)
    ensures i + 2 < |toks| ==> o == NotOpened(TooManyRedirectArgs)
    ensures i + 2 == |toks| && !openOk ==> o == NotOpened(CannotOpen(toks[i + 1]))
  {
    var overwrite := toks[i] == ">";
    if i + 1 == |toks| {
      return NotOpened(NoFilename);
    }
    var fileName := toks[i + 1];
    if i + 2 < |toks| {
      return NotOpened(TooManyRedirectArgs);
    }
    if !openOk {
      return NotOpened(CannotOpen(fileName));
    }
    o := Opened(Redirect(if overwrite then Truncate else Append, fileName));
  }

  /** Groups of the first `i` tokens, by recursion on the count. */
  function GroupsTo(toks: seq<Token>, i: nat): (gs: seq<Stage>)
    requires i <= |toks|
    ensures |gs| >= 1
  {
    if i == 0 then [[]]
    else
      var g := GroupsTo(toks, i - 1);
      if toks[i - 1] == "|" then g + [[]] else g[..|g| - 1] + [g[|g| - 1] + [toks[i - 1]]]
  }

  /** Nothing is pending exactly at the line start and right after a "|". */
  lemma GroupsToLast(toks: seq<Token>, i: nat)
    requires i <= |toks|
    ensures var g := GroupsTo(toks, i); g[|g| - 1] == [] <==> i == 0 || toks[i - 1] == "|"
  {
  }

  lemma {:induction false} GroupsToPrefix(toks: seq<Token>, i: nat)
    requires i <= |toks|
    ensures GroupsTo(toks, i) == Groups(toks[..i])
  {
    if i > 0 {
      GroupsToPrefix(toks, i - 1);
      GroupsStep(toks, i - 1);
    }
  }

  /** The token loop of parseCommand up to the redirection operator or the
      end of the line: "|" closes the expression being collected, any other
      token joins it.  It fails at a "|" with nothing collected in front of
      it, and otherwise stops at the first ">" or ">>", where parseCommand
      breaks out of the loop. */
  method CollectStages(toks: seq<Token>) returns (ok: bool, i: nat, stages: seq<Stage>, expression: Stage)
    ensures i <= |toks| && forall j :: 0 <= j < i ==> !IsRedirectOp(toks[j])
    ensures forall j :: 0 <= j < i ==> !EmptyPipeAt(toks, j)
    ensures ok ==> (i == |toks| || IsRedirectOp(toks[i])) && stages + [expression] == GroupsTo(toks, i)
    ensures !ok ==> i < |toks| && toks[i] == "|" && EmptyPipeAt(toks, i)
  {
    expression := [];
    stages := [];
    i := 0;
    while i < |toks|
      invariant i <= |toks|
      invariant forall j :: 0 <= j < i ==> !IsRedirectOp(toks[j])
      invariant forall j :: 0 <= j < i ==> !EmptyPipeAt(toks, j)
      invariant stages + [expression] == GroupsTo(toks, i)
    {
      var token := toks[i];
      if token == ">" || token == ">>" {
        break;
      }
      CollectStep(toks, i, stages, expression);
      if token == "|" {
        if |expression| > 0 {
          stages := stages + [expression];
          expression := [];
        } else {
          return false, i, stages, expression;
        }
      } else {
        expression := expression + [token];
      }
      i := i + 1;
    }
    ok := true;
  }

  /** No operator among the first `i` tokens puts the first one at `i` or
      later, and exactly at `i` when `i` ends the line or holds one. */
  lemma {:induction false} FirstRedirectAfter(toks: seq<Token>, i: nat)
    requires i <= |toks|
    requires forall j :: 0 <= j < i ==> !IsRedirectOp(toks[j])
    ensures i <= RedirectIndex(toks)
    ensures i == |toks| || IsRedirectOp(toks[i]) ==> RedirectIndex(toks) == i
  {
  }

  /** parseCommand's handling of the tokens: the stages are collected, the
      redirection, if any, is checked and applied, and the last stage must
      not be empty. */
  method ParseTokens(toks: seq<Token>, openOk: bool) returns (r: ParseResult)
    ensures r == Parse(toks, openOk)
  {
    var ok, i, stages, expression := CollectStages(toks);
    FirstRedirectAfter(toks, if ok then i else i + 1);
    if !ok {
      ParseAtEmptyPipe(toks, openOk, i);
      return Failed(NoPipeInput, None);
    }
    var redirect: Option<Redirect> := None;
    if i < |toks| {
      var outcome := ParseRedirect(toks, openOk, i);
      if outcome.NotOpened? {
        ParseAtRedirect(toks, openOk, i);
        return Failed(outcome.error, None);
      }
      redirect := Some(outcome.redirect);
    }
    ParseAtEnd(toks, openOk, i, stages, expression, redirect);
    if |expression| == 0 {
      return Failed(NoCommandAfterPipe, redirect);
    }
    r := Parsed(stages + [expression], redirect);
  }

  lemma ParseAtRedirect(toks: seq<Token>, openOk: bool, i: nat)
    requires i == RedirectIndex(toks) < |toks|
    requires forall j :: 0 <= j < i ==> !EmptyPipeAt(toks, j)
    ensures i + 1 == |toks| ==> Parse(toks, openOk) == Failed(NoFilename, None)
    ensures i + 2 < |toks| ==> Parse(toks, openOk) == Failed(TooManyRedirectArgs, None)
    ensures i + 2 == |toks| && !openOk ==> Parse(toks, openOk) == Failed(CannotOpen(toks[i + 1]), None)
  {
    ParseClean(toks, openOk);
  }

  lemma ParseAtEnd(toks: seq<Token>, openOk: bool, i: nat, stages: seq<Stage>, expression: Stage,
                   redirect: Option<Redirect>)
    requires i == RedirectIndex(toks)
    requires forall j :: 0 <= j < i ==> !EmptyPipeAt(toks, j)
    requires stages + [expression] == GroupsTo(toks, i)
    requires i < |toks| ==> i + 2 == |toks| && openOk
    requires redirect == if i < |toks| then Some(Redirect(ModeOf(toks[i]), toks[i + 1])) else None
    ensures Parse(toks, openOk) ==
      if expression == [] then Failed(NoCommandAfterPipe, redirect) else Parsed(stages + [expression], redirect)
  {
    ParseClean(toks, openOk);
    GroupsToLast(toks, i);
  }

  lemma ParseAtEmptyPipe(toks: seq<Token>, openOk: bool, i: nat)
    requires i < RedirectIndex(toks) && EmptyPipeAt(toks, i)
    ensures Parse(toks, openOk) == Failed(NoPipeInput, None)
  {
  }

  lemma ParseClean(toks: seq<Token>, openOk: bool)
    requires forall j :: 0 <= j < RedirectIndex(toks) ==> !EmptyPipeAt(toks, j)
    ensures Parse(toks, openOk) == Finish(toks, openOk)
  {
  }

  lemma GroupsStep(toks: seq<Token>, i: nat)
    requires i < |toks|
    ensures var g := Groups(toks[..i]);
      Groups(toks[..i + 1]) ==
        if toks[i] == "|" then g + [[]] else g[..|g| - 1] + [g[|g| - 1] + [toks[i]]]
  {
    assert toks[..i + 1][..i] == toks[..i];
  }

  lemma GroupsLastEmpty(ts: seq<Token>)
    ensures var g := Groups(ts); g[|g| - 1] == [] <==> ts == [] || ts[|ts| - 1] == "|"
  {
  }

  /** No operand is lost or reordered by the grouping. */
  lemma {:induction false} FlattenGroups(ts: seq<Token>)
    ensures Flatten(Groups(ts)) == Operands(ts)
    decreases |ts|
  {
    if ts != [] {
      var s, t := ts[..|ts| - 1], ts[|ts| - 1];
      FlattenGroups(s);
      var g := Groups(s);
      var n := |g|;
      if t == "|" {
        FlattenSnoc(g, []);
      } else {
        assert g == g[..n - 1] + [g[n - 1]];
        FlattenSnoc(g[..n - 1], g[n - 1]);
        FlattenSnoc(g[..n - 1], g[n - 1] + [t]);
      }
    }
  }

  /** No group holds a "|". */
  lemma {:induction false} GroupsPipeFree(ts: seq<Token>)
    ensures forall i :: 0 <= i < |Groups(ts)| ==> "|" !in Groups(ts)[i]
    decreases |ts|
  {
    if ts != [] {
      GroupsPipeFree(ts[..|ts| - 1]);
    }
  }

  lemma JoinExtendLast(gs: seq<Stage>, x: seq<Token>)
    requires |gs| >= 1
    ensures Join(gs[..|gs| - 1] + [gs[|gs| - 1] + x]) == Join(gs) + x
  {
    var n := |gs|;
    var hs := gs[..n - 1] + [gs[n - 1] + x];
    if n > 1 {
      assert hs[..n - 1] == gs[..n - 1];
    }
  }

  /** Writing the groups back with "|" gives the tokens again. */
  lemma {:induction false} GroupsJoin(ts: seq<Token>)
    ensures Join(Groups(ts)) == ts
    decreases |ts|
  {
    if ts != [] {
      var s, t := ts[..|ts| - 1], ts[|ts| - 1];
      GroupsJoin(s);
      var g := Groups(s);
      var n := |g|;
      assert ts == s + [t];
      if t == "|" {
        assert (g + [[]])[..n] == g;
      } else {
        JoinExtendLast(g, [t]);
      }
    }
  }

  lemma {:induction false} GroupsAfterPipe(s: seq<Token>, w: Stage)
    requires "|" !in w
    ensures Groups(s + ["|"] + w) == Groups(s) + [w]
    decreases |w|
  {
    var ts := s + ["|"] + w;
    if w == [] {
      assert ts[..|ts| - 1] == s;
    } else {
      var w', x := w[..|w| - 1], w[|w| - 1];
      GroupsAfterPipe(s, w');
      assert ts[..|ts| - 1] == s + ["|"] + w';
      assert w == w' + [x];
    }
  }

  lemma {:induction false} GroupsOfRun(w: Stage)
    requires "|" !in w
    ensures Groups(w) == [w]
    decreases |w|
  {
    if w != [] {
      var w', x := w[..|w| - 1], w[|w| - 1];
      GroupsOfRun(w');
      assert w == w' + [x];
    }
  }

  /** Grouping the joined stages gives the stages back. */
  lemma {:induction false} JoinGroups(gs: seq<Stage>)
    requires |gs| >= 1
    requires forall i :: 0 <= i < |gs| ==> "|" !in gs[i]
    ensures Groups(Join(gs)) == gs
    decreases |gs|
  {
    var n := |gs|;
    if n == 1 {
      GroupsOfRun(gs[0]);
    } else {
      JoinGroups(gs[..n - 1]);
      GroupsAfterPipe(Join(gs[..n - 1]), gs[n - 1]);
      assert gs == gs[..n - 1] + [gs[n - 1]];
    }
  }

  predicate NoEmptyPipe(ts: seq<Token>)
  {
    forall j :: 0 <= j < |ts| ==> !EmptyPipeAt(ts, j)
  }

  predicate ClosedStagesNonEmpty(gs: seq<Stage>)
  {
    forall i :: 0 <= i < |gs| - 1 ==> gs[i] != []
  }

  /** One more token: it adds an empty pipe input exactly when it is a "|"
      at the line start or after another "|". */
  lemma NoEmptyPipeSnoc(s: seq<Token>, t: Token)
    ensures NoEmptyPipe(s + [t]) <==>
      NoEmptyPipe(s) && !(t == "|" && (s == [] || s[|s| - 1] == "|"))
  {
    var ts := s + [t];
    assert forall j :: 0 <= j < |s| ==> (EmptyPipeAt(ts, j) <==> EmptyPipeAt(s, j));
    assert EmptyPipeAt(ts, |s|) <==> t == "|" && (s == [] || s[|s| - 1] == "|");
  }

  /** Closing the current stage adds it to the closed ones; extending it
      leaves the closed ones alone. */
  lemma ClosedSnoc(g: seq<Stage>, t: Token)
    requires |g| >= 1
    ensures ClosedStagesNonEmpty(g + [[]]) <==> ClosedStagesNonEmpty(g) && g[|g| - 1] != []
    ensures ClosedStagesNonEmpty(g[..|g| - 1] + [g[|g| - 1] + [t]]) <==> ClosedStagesNonEmpty(g)
  {
    var m := |g|;
    var h := g + [[]];
    assert forall i :: 0 <= i < m ==> h[i] == g[i];
    var e := g[..m - 1] + [g[m - 1] + [t]];
    assert forall i :: 0 <= i < m - 1 ==> e[i] == g[i];
  }

  /** A "|" never directly follows the line start or another "|" exactly
      when every stage closed by a "|" is non-empty. */
  lemma {:induction false} NoEmptyPipeIff(ts: seq<Token>)
    ensures NoEmptyPipe(ts) <==> ClosedStagesNonEmpty(Groups(ts))
    decreases |ts|
  {
    if ts != [] {
      var s, t := ts[..|ts| - 1], ts[|ts| - 1];
      assert ts == s + [t];
      NoEmptyPipeIff(s);
      GroupsLastEmpty(s);
      NoEmptyPipeSnoc(s, t);
      ClosedSnoc(Groups(s), t);
    }
  }

  /** Tokens free of redirection operators do not move the first one. */
  lemma {:induction false} RedirectIndexAfter(a: seq<Token>, b: seq<Token>)
    requires forall j :: 0 <= j < |a| ==> !IsRedirectOp(a[j])
    ensures RedirectIndex(a + b) == |a| + RedirectIndex(b)
    decreases |a|
  {
    if a == [] {
      assert a + b == b;
    } else {
      assert (a + b)[0] == a[0];
      assert (a + b)[1..] == a[1..] + b;
      RedirectIndexAfter(a[1..], b);
    }
  }

  lemma {:induction false} JoinPlain(gs: seq<Stage>)
    requires |gs| >= 1
    requires forall i :: 0 <= i < |gs| ==> Plain(gs[i])
    ensures forall j :: 0 <= j < |Join(gs)| ==> !IsRedirectOp(Join(gs)[j])
    decreases |gs|
  {
    var n := |gs|;
    if n > 1 {
      JoinPlain(gs[..n - 1]);
      var a := Join(gs[..n - 1]);
      assert Join(gs) == a + ["|"] + gs[n - 1];
      forall j | 0 <= j < |Join(gs)|
        ensures !IsRedirectOp(Join(gs)[j])
      {
        if j < |a| {
          assert Join(gs)[j] == a[j];
        } else if j > |a| {
          assert Join(gs)[j] == gs[n - 1][j - |a| - 1];
        }
      }
    }
  }

  lemma EmptyPipePrefix(a: seq<Token>, b: seq<Token>)
    ensures forall j :: 0 <= j < |a| ==> (EmptyPipeAt(a + b, j) <==> EmptyPipeAt(a, j))
  {
  }

  /** What the tokens of well-formed stages look like once joined. */
  lemma JoinedStages(stages: seq<Stage>)
    requires WellFormed(stages)
    ensures var a := Join(stages);
      Groups(a) == stages && NoEmptyPipe(a) && |a| > 0 && a[|a| - 1] != "|" &&
      forall j :: 0 <= j < |a| ==> !IsRedirectOp(a[j])
  {
    var a := Join(stages);
    forall i | 0 <= i < |stages| ensures "|" !in stages[i] {
      assert forall j :: 0 <= j < |stages[i]| ==> stages[i][j] != "|";
    }
    JoinGroups(stages);
    JoinPlain(stages);
    NoEmptyPipeIff(a);
    GroupsLastEmpty(a);
  }

  /** A successful parse yields at least one stage, none empty and none
      holding "|"; its stages concatenated are the operand tokens before the
      redirection operator, in order; and the line is exactly the stages
      joined by "|" followed by the redirection, so nothing after the file
      name was accepted. */
  lemma ParsedShape(toks: seq<Token>, openOk: bool)
    requires Parse(toks, openOk).Parsed?
    ensures var p := Parse(toks, openOk);
      |p.stages| >= 1 &&
      (forall i :: 0 <= i < |p.stages| ==> |p.stages[i]| > 0 && "|" !in p.stages[i]) &&
      Flatten(p.stages) == Operands(toks[..RedirectIndex(toks)]) &&
      toks == Unparse(p.stages, p.redirect)
  {
    var p := Parse(toks, openOk);
    var pre := toks[..RedirectIndex(toks)];
    ParsedSplit(toks, openOk);
    StagesOfCleanPrefix(pre);
  }

  /** A successful parse groups the non-empty tokens before the operator,
      which end in an operand and hold no empty pipe input, and the
      redirection consists of the operator and the single token after it. */
  lemma ParsedSplit(toks: seq<Token>, openOk: bool)
    requires Parse(toks, openOk).Parsed?
    ensures var p := Parse(toks, openOk); var pre := toks[..RedirectIndex(toks)];
      pre != [] && pre[|pre| - 1] != "|" && NoEmptyPipe(pre) &&
      p.stages == Groups(pre) && toks == pre + RedirectTokens(p.redirect)
  {
    var k := RedirectIndex(toks);
    assert Parse(toks, openOk) == Finish(toks, openOk);
    FinishedSplit(toks, openOk);
    GroupsToPrefix(toks, k);
    EmptyPipePrefix(toks[..k], toks[k..]);
    assert toks[..k] + toks[k..] == toks;
  }

  lemma FinishedSplit(toks: seq<Token>, openOk: bool)
    requires Finish(toks, openOk).Parsed?
    ensures var p := Finish(toks, openOk); var pre := toks[..RedirectIndex(toks)];
      pre != [] && pre[|pre| - 1] != "|" &&
      p.stages == GroupsTo(toks, RedirectIndex(toks)) && toks == pre + RedirectTokens(p.redirect)
  {
    var k := RedirectIndex(toks);
    var pre := toks[..k];
    if k < |toks| {
      assert OpToken(ModeOf(toks[k])) == toks[k];
      assert toks == pre + [toks[k], toks[k + 1]];
    } else {
      assert toks == pre;
    }
  }

  /** The grouping of tokens that end in an operand and hold no empty pipe
      input: non-empty pipe-free stages holding the operands, which joined
      by "|" give the tokens back. */
  lemma StagesOfCleanPrefix(pre: seq<Token>)
    requires pre != [] && pre[|pre| - 1] != "|" && NoEmptyPipe(pre)
    ensures var g := Groups(pre);
      (forall i :: 0 <= i < |g| ==> |g[i]| > 0 && "|" !in g[i]) &&
      Flatten(g) == Operands(pre) && Join(g) == pre
  {
    NoEmptyPipeIff(pre);
    GroupsLastEmpty(pre);
    GroupsPipeFree(pre);
    FlattenGroups(pre);
    GroupsJoin(pre);
  }

  /** Every well-formed pipeline, with or without a redirection, is parsed
      back from its tokens. */
  lemma UnparseParse(stages: seq<Stage>, redirect: Option<Redirect>)
    requires WellFormed(stages)
    ensures Parse(Unparse(stages, redirect), true) == Parsed(stages, redirect)
  {
    var a := Join(stages);
    var tail := RedirectTokens(redirect);
    var toks := a + tail;
    JoinedStages(stages);
    RedirectIndexAfter(a, tail);
    assert RedirectIndex(tail) == 0;
    EmptyPipePrefix(a, tail);
    assert toks[..|a|] == a;
    GroupsToPrefix(toks, |a|);
    ParseClean(toks, true);
    if redirect.Some? {
      assert ModeOf(OpToken(redirect.value.mode)) == redirect.value.mode;
    }
  }

  /** "A | met while no token is pending" is exactly when the line fails
      with "no command given as pipe input". */
  lemma NoPipeInputIff(toks: seq<Token>, openOk: bool)
    ensures Parse(toks, openOk) == Failed(NoPipeInput, None) <==>
            exists j :: 0 <= j < RedirectIndex(toks) && toks[j] == "|" && NothingPending(toks, j)
  {
    var k := RedirectIndex(toks);
    forall j | 0 <= j < k
      ensures EmptyPipeAt(toks, j) <==> toks[j] == "|" && NothingPending(toks, j)
    {
      GroupsLastEmpty(toks[..j]);
    }
  }

  /** After the stages, a redirection operator must be followed by exactly
      one token: none and two or more are errors, and with exactly one the
      file named by it receives the output, overwritten for ">" and
      appended to for ">>", provided it can be opened. */
  lemma RedirectTakesOneFile(stages: seq<Stage>, op: Token, rest: seq<Token>, openOk: bool)
    requires WellFormed(stages) && IsRedirectOp(op)
    ensures var p := Parse(Join(stages) + [op] + rest, openOk);
      (rest == [] ==> p == Failed(NoFilename, None)) &&
      (|rest| >= 2 ==> p == Failed(TooManyRedirectArgs, None)) &&
      (|rest| == 1 && !openOk ==> p == Failed(CannotOpen(rest[0]), None)) &&
      (|rest| == 1 && openOk ==> p == Parsed(stages, Some(Redirect(if op == ">" then Truncate else Append, rest[0]))))
  {
    var a := Join(stages);
    var toks := a + [op] + rest;
    ScanToRedirect(stages, op, rest);
    ParseClean(toks, openOk);
    assert toks[|a|] == op;
    if |rest| >= 1 {
      assert toks[|a| + 1] == rest[0];
    }
  }

  /** Past well-formed stages, the scan stops at the redirection operator
      with the stages collected and no empty pipe seen. */
  lemma ScanToRedirect(stages: seq<Stage>, op: Token, rest: seq<Token>)
    requires WellFormed(stages) && IsRedirectOp(op)
    ensures var toks := Join(stages) + [op] + rest;
      RedirectIndex(toks) == |Join(stages)| &&
      GroupsTo(toks, |Join(stages)|) == stages &&
      forall j :: 0 <= j < |Join(stages)| ==> !EmptyPipeAt(toks, j)
  {
    var a := Join(stages);
    var tail := [op] + rest;
    var toks := a + tail;
    assert toks == a + [op] + rest;
    JoinedStages(stages);
    RedirectIndexAfter(a, tail);
    assert RedirectIndex(tail) == 0;
    EmptyPipePrefix(a, tail);
    assert toks[..|a|] == a;
    GroupsToPrefix(toks, |a|);
  }

  lemma TrailingPipe(stages: seq<Stage>, tail: seq<Token>, openOk: bool)
    requires WellFormed(stages)
    requires tail == [] || (|tail| == 2 && IsRedirectOp(tail[0]) && openOk)
    ensures Parse(Join(stages) + ["|"] + tail, openOk) ==
            Failed(NoCommandAfterPipe, if tail == [] then None else Some(Redirect(ModeOf(tail[0]), tail[1])))
  {
    var toks := Join(stages) + ["|"] + tail;
    var k := |Join(stages)| + 1;
    ScanToTrailingPipe(stages, tail);
    ParseClean(toks, openOk);
    assert toks[k - 1] == "|";
    if tail != [] {
      assert toks[k] == tail[0] && toks[k + 1] == tail[1];
    }
  }

  lemma ScanToTrailingPipe(stages: seq<Stage>, tail: seq<Token>)
    requires WellFormed(stages)
    requires tail == [] || IsRedirectOp(tail[0])
    ensures var toks := Join(stages) + ["|"] + tail;
      RedirectIndex(toks) == |Join(stages)| + 1 &&
      forall j :: 0 <= j <= |Join(stages)| ==> !EmptyPipeAt(toks, j)
  {
    var a := Join(stages);
    var b := ["|"] + tail;
    var toks := a + b;
    assert toks == a + ["|"] + tail;
    JoinedStages(stages);
    RedirectIndexAfter(a, b);
    RedirectIndexAfter(["|"], tail);
    assert RedirectIndex(tail) == 0;
    EmptyPipePrefix(a, b);
    assert toks[|a|] == "|";
    assert !EmptyPipeAt(toks, |a|);
  }

  lemma {:induction false} StripSeparators(s: string)
    requires forall i :: 0 <= i < |s| ==> s[i] in Separators
    ensures Strtok.Strip(s, Separators) == []
    decreases |s|
  {
    if s != [] {
      StripSeparators(s[1..]);
    }
  }

  lemma {:induction false} TokensCarryText(ts: seq<string>)
    requires forall i :: 0 <= i < |ts| ==> |ts[i]| > 0
    ensures |Flatten(ts)| >= |ts|
  {
    if ts != [] {
      TokensCarryText(ts[1..]);
    }
  }

  /** A line of nothing but spaces and newlines yields no token, and the
      parse reports "no command after pipe character". */
  lemma BlankLine(command: string)
    requires forall i :: 0 <= i < |command| ==> command[i] in Separators
    ensures LineTokens(command) == []
    ensures Parse(LineTokens(command), true) == Failed(NoCommandAfterPipe, None)
  {
    var s := CStr(command);
    assert forall i :: 0 <= i < |s| ==> s[i] == command[i];
    StripSeparators(s);
    Strtok.SplitKeepsText(s, Separators);
    Strtok.SplitTokens(s, Separators);
    TokensCarryText(Strtok.Split(s, Separators));
  }

  /** Operators count only as whole tokens: a line whose tokens are none of
      exactly "|", ">" or ">>" (though they may contain those characters, as
      "a>b" or "x|y" do) is one stage holding every token, whatever fopen
      would report. */
  lemma GluedOperatorIsOperand(w: Stage, openOk: bool)
    requires |w| > 0 && Plain(w)
    ensures Parse(w, openOk) == Parsed([w], None)
  {
    var stages: seq<Stage> := [w];
    UnparseParse(stages, None);
    assert Unparse(stages, None) == w;
    RedirectIndexAfter(w, []);
    JoinedStages(stages);
    ParseClean(w, true);
    ParseClean(w, openOk);
  }
}
