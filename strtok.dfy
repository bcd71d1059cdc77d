/** strtok(3) as the shell uses it: a string is cut into the maximal
    non-empty runs of characters that are not delimiters.  The shell splits
    command lines on {' ', '\n'} and the PATH variable on {':'}. */
module Strtok {
  import opened Basics

  /** No character of `w` is a delimiter. */
  predicate Free(w: string, delims: set<char>)
  {
    forall i :: 0 <= i < |w| ==> w[i] !in delims
  }

  /** What strtok can hand back: a non-empty run free of delimiters. */
  predicate IsToken(w: string, delims: set<char>)
  {
    |w| > 0 && Free(w, delims)
  }

  /** The successive strtok results on `s`, given the characters `pending`
      of a token already started. */
  function Scan(s: string, delims: set<char>, pending: string): seq<string>
    decreases |s|
  {
    if s == [] then
      (if pending == [] then [] else [pending])
    else if s[0] in delims then
      (if pending == [] then Scan(s[1..], delims, []) else [pending] + Scan(s[1..], delims, []))
    else
      Scan(s[1..], delims, pending + [s[0]])
  }

  /** All tokens strtok returns for `s`, in order. */
  function Split(s: string, delims: set<char>): seq<string>
  {
    Scan(s, delims, [])
  }

  /** `s` with every delimiter removed. */
  function Strip(s: string, delims: set<char>): string
  {
    if s == [] then [] else (if s[0] in delims then [] else [s[0]]) + Strip(s[1..], delims)
  }

  /** The words joined by one separator character. */
  function Join(ws: seq<string>, sep: char): string
  {
    if |ws| == 0 then []
    else if |ws| == 1 then ws[0]
    else ws[0] + [sep] + Join(ws[1..], sep)
  }

  lemma {:induction false} ScanTokens(s: string, delims: set<char>, pending: string)
    requires Free(pending, delims)
    ensures forall i :: 0 <= i < |Scan(s, delims, pending)| ==> IsToken(Scan(s, delims, pending)[i], delims)
  {
    if s != [] {
      if s[0] in delims {
        ScanTokens(s[1..], delims, []);
      } else {
        ScanTokens(s[1..], delims, pending + [s[0]]);
      }
    }
  }

  lemma {:induction false} ScanKeepsText(s: string, delims: set<char>, pending: string)
    ensures Flatten(Scan(s, delims, pending)) == pending + Strip(s, delims)
  {
    if s == [] {
      if pending != [] {
        assert Flatten([pending]) == pending + Flatten([pending][1..]);
      }
    } else if s[0] in delims {
      ScanKeepsText(s[1..], delims, []);
      if pending != [] {
        var rest := Scan(s[1..], delims, []);
        assert ([pending] + rest)[1..] == rest;
      }
    } else {
      ScanKeepsText(s[1..], delims, pending + [s[0]]);
    }
  }

  /** Every token is non-empty and free of delimiters. */
  lemma SplitTokens(s: string, delims: set<char>)
    ensures forall i :: 0 <= i < |Split(s, delims)| ==> IsToken(Split(s, delims)[i], delims)
  {
    ScanTokens(s, delims, []);
  }

  /** Nothing but the delimiters is lost: the tokens concatenated are the
      text with its delimiters removed. */
  lemma SplitKeepsText(s: string, delims: set<char>)
    ensures Flatten(Split(s, delims)) == Strip(s, delims)
  {
    ScanKeepsText(s, delims, []);
  }

  /** A delimiter always ends a token: what comes after it is split on its own. */
  lemma {:induction false} ScanAtDelimiter(a: string, d: char, b: string, delims: set<char>, pending: string)
    requires d in delims
    ensures Scan(a + [d] + b, delims, pending) == Scan(a, delims, pending) + Split(b, delims)
    decreases |a|
  {
    var s := a + [d] + b;
    if a == [] {
      assert s[0] == d && s[1..] == b;
    } else {
      assert s[0] == a[0] && s[1..] == a[1..] + [d] + b;
      if a[0] in delims {
        ScanAtDelimiter(a[1..], d, b, delims, []);
      } else {
        ScanAtDelimiter(a[1..], d, b, delims, pending + [a[0]]);
      }
    }
  }

  /** A run free of delimiters is never cut. */
  lemma {:induction false} ScanRun(w: string, delims: set<char>, pending: string)
    requires Free(w, delims) && |pending + w| > 0
    ensures Scan(w, delims, pending) == [pending + w]
    decreases |w|
  {
    if w == [] {
      assert pending + w == pending;
    } else {
      assert pending + [w[0]] + w[1..] == pending + w;
      ScanRun(w[1..], delims, pending + [w[0]]);
    }
  }

  /** Tokens joined by a delimiter are split back into the same tokens:
      the runs strtok returns are maximal. */
  lemma {:induction false} SplitJoin(ws: seq<string>, sep: char, delims: set<char>)
    requires sep in delims
    requires forall i :: 0 <= i < |ws| ==> IsToken(ws[i], delims)
    ensures Split(Join(ws, sep), delims) == ws
  {
    if |ws| == 1 {
      ScanRun(ws[0], delims, []);
      assert [] + ws[0] == ws[0];
      assert ws == [ws[0]];
    } else if |ws| > 1 {
      SplitJoin(ws[1..], sep, delims);
      ScanAtDelimiter(ws[0], sep, Join(ws[1..], sep), delims, []);
      ScanRun(ws[0], delims, []);
      assert [] + ws[0] == ws[0];
      assert Join(ws, sep) == ws[0] + [sep] + Join(ws[1..], sep);
      assert ws == [ws[0]] + ws[1..];
    }
  }
}
