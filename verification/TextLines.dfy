/** Text as lines: Rust's `str::split('\n')`, `str::lines` and the way an edited file is put together
    again (crates/tools/src/fs.rs, `EditFile::run`). */
module TextLines {
  import opened Wrappers
  import opened Llm
  import opened Hashlines

  /** `split('\n')`: the pieces between newlines, at least one. */
  function SplitLines(s: string): (parts: seq<string>)
    ensures parts != [] && forall p :: p in parts ==> '\n' !in p
  {
    IndexOfMeaning(s, '\n');
    match IndexOf(s, '\n')
    case None => [s]
    case Some(k) => [s[..k]] + SplitLines(s[k + 1..])
  }

  /** Splitting loses nothing. */
  lemma {:induction false} SplitJoin(s: string)
    ensures Join(SplitLines(s), "\n") == s
  {
    IndexOfMeaning(s, '\n');
    var at := IndexOf(s, '\n');
    if at.Some? {
      var rest := s[at.value + 1..];
      SplitJoin(rest);
      assert ([s[..at.value]] + SplitLines(rest))[1..] == SplitLines(rest);
      assert s == s[..at.value] + "\n" + rest;
    }
  }

  predicate EndsInReturn(s: string) {
    s != "" && s[|s| - 1] == '\r'
  }

  /** What `lines` makes of a line that a newline ended. */
  function Chomp(s: string): string {
    if EndsInReturn(s) then s[..|s| - 1] else s
  }

  /** `str::lines`: newline-terminated lines, less one carriage return each, and a last unterminated one. */
  function LinesOf(s: string): (lines: seq<string>)
    ensures forall p :: p in lines ==> '\n' !in p
  {
    IndexOfMeaning(s, '\n');
    if s == "" then []
    else match IndexOf(s, '\n')
      case None => [s]
      case Some(k) => [Chomp(s[..k])] + LinesOf(s[k + 1..])
  }

  predicate EndsInNewline(s: string) {
    s != "" && s[|s| - 1] == '\n'
  }

  /** The new text of a patched file: the lines joined, and the final newline kept unless nothing is left. */
  function FileText(lines: seq<string>, newline: bool): string {
    var text := Join(lines, "\n");
    if newline && text != "" then text + "\n" else text
  }

  // Lines joined, with a final newline whatever they are.
  function Closed(lines: seq<string>, newline: bool): string {
    Join(lines, "\n") + (if newline then "\n" else "")
  }

  lemma LinesOfCons(line: string, rest: string)
    requires '\n' !in line
    ensures LinesOf(line + "\n" + rest) == [Chomp(line)] + LinesOf(rest)
  {
    var s := line + "\n" + rest;
    IndexOfAt(s, '\n', |line|);
    assert s[..|line|] == line && s[|line| + 1..] == rest;
  }

  lemma LinesOfOne(line: string)
    requires '\n' !in line
    ensures LinesOf(line) == if line == "" then [] else [line]
  {
    IndexOfMeaning(line, '\n');
  }

  /** A newline follows line `i` in the file. */
  predicate Terminated(lines: seq<string>, newline: bool, i: nat) {
    i + 1 < |lines| || newline
  }

  ghost predicate NoReturns(lines: seq<string>, newline: bool) {
    forall i: nat {:trigger lines[i]} :: i < |lines| && Terminated(lines, newline, i) ==> !EndsInReturn(lines[i])
  }

  lemma NoReturnsTail(lines: seq<string>, newline: bool)
    requires |lines| >= 2
    ensures NoReturns(lines, newline) <==> !EndsInReturn(lines[0]) && NoReturns(lines[1..], newline)
  {
    var tail := lines[1..];
    if !EndsInReturn(lines[0]) && NoReturns(tail, newline) {
      forall i: nat {:trigger lines[i]} | i < |lines| && Terminated(lines, newline, i)
        ensures !EndsInReturn(lines[i])
      {
        if i > 0 {
          assert lines[i] == tail[i - 1];
        }
      }
    }
    if NoReturns(lines, newline) {
      forall i: nat {:trigger tail[i]} | i < |tail| && Terminated(tail, newline, i)
        ensures !EndsInReturn(tail[i])
      {
        assert tail[i] == lines[i + 1];
      }
    }
  }

  lemma {:induction false} ClosedRereads(lines: seq<string>, newline: bool)
    requires lines != [] && forall p :: p in lines ==> '\n' !in p
    ensures LinesOf(Closed(lines, newline)) == lines <==>
              NoReturns(lines, newline) && (newline || lines[|lines| - 1] != "")
  {
    if |lines| == 1 {
      if newline {
        assert Closed(lines, newline) == lines[0] + "\n" + "";
        LinesOfCons(lines[0], "");
      } else {
        assert Closed(lines, newline) == lines[0];
        LinesOfOne(lines[0]);
      }
    } else {
      var tail := lines[1..];
      assert Closed(lines, newline) == lines[0] + "\n" + Closed(tail, newline);
      LinesOfCons(lines[0], Closed(tail, newline));
      ClosedRereads(tail, newline);
      NoReturnsTail(lines, newline);
      assert lines == [lines[0]] + tail;
      assert LinesOf(Closed(lines, newline))[1..] == LinesOf(Closed(tail, newline));
    }
  }

  lemma {:induction false} JoinEmpty(lines: seq<string>)
    ensures Join(lines, "\n") == "" <==> lines == [] || lines == [""]
  {
    if |lines| > 1 {
      assert |Join(lines, "\n")| >= 1;
    }
  }

  /** Reading back the file that was written gives the same lines, exactly when no terminated line
      ends in a carriage return and the last line is visible in the text. */
  lemma FileRereads(lines: seq<string>, newline: bool)
    requires forall p :: p in lines ==> '\n' !in p
    ensures LinesOf(FileText(lines, newline)) == lines <==>
              || lines == []
              || (NoReturns(lines, newline) && (lines[|lines| - 1] != "" || (newline && |lines| >= 2)))
  {
    JoinEmpty(lines);
    if lines != [] && lines != [""] {
      ClosedRereads(lines, newline);
      assert FileText(lines, newline) == Closed(lines, newline);
    }
  }

  ghost predicate HasCrLf(s: string) {
    exists i: nat {:trigger s[i]} :: i + 1 < |s| && s[i] == '\r' && s[i + 1] == '\n'
  }

  lemma HasCrLfCons(line: string, rest: string)
    requires '\n' !in line
    ensures HasCrLf(line + "\n" + rest) <==> EndsInReturn(line) || HasCrLf(rest)
  {
    var s := line + "\n" + rest;
    if EndsInReturn(line) {
      assert s[|line| - 1] == '\r' && s[|line| - 1 + 1] == '\n';
    }
    if HasCrLf(rest) {
      var i: nat :| i + 1 < |rest| && rest[i] == '\r' && rest[i + 1] == '\n';
      var j := |line| + 1 + i;
      assert s[j] == rest[i] && s[j + 1] == rest[i + 1];
    }
    if HasCrLf(s) {
      var i: nat :| i + 1 < |s| && s[i] == '\r' && s[i + 1] == '\n';
      assert forall k :: 0 <= k < |line| ==> s[k] == line[k];
      if i > |line| {
        var j := i - |line| - 1;
        assert rest[j] == s[i] && rest[j + 1] == s[i + 1];
      }
    }
  }

  lemma ClosedCons(line: string, rest: string)
    requires '\n' !in line
    ensures var s := line + "\n" + rest;
      Closed(LinesOf(s), EndsInNewline(s))
      == Chomp(line) + "\n" + (if rest == "" then "" else Closed(LinesOf(rest), EndsInNewline(rest)))
  {
    var s := line + "\n" + rest;
    LinesOfCons(line, rest);
    if rest == "" {
      assert LinesOf(s) == [Chomp(line)];
    } else {
      hide LinesOf;
      LinesOfNonempty(rest);
      assert LinesOf(s)[1..] == LinesOf(rest);
      assert s[|s| - 1] == rest[|rest| - 1];
    }
  }

  lemma {:induction false} ClosedRestores(s: string)
    requires s != ""
    ensures |Closed(LinesOf(s), EndsInNewline(s))| <= |s|
    ensures Closed(LinesOf(s), EndsInNewline(s)) == s <==> !HasCrLf(s)
  {
    IndexOfMeaning(s, '\n');
    var at := IndexOf(s, '\n');
    if at.None? {
      assert LinesOf(s) == [s];
    } else {
      hide Closed, LinesOf, HasCrLf;
      var line, rest := s[..at.value], s[at.value + 1..];
      assert s == line + "\n" + rest;
      HasCrLfCons(line, rest);
      ClosedCons(line, rest);
      if rest == "" {
        SameParts(Chomp(line), "", line, "");
        NoCrLfInEmpty();
      } else {
        ClosedRestores(rest);
        SameParts(Chomp(line), Closed(LinesOf(rest), EndsInNewline(rest)), line, rest);
      }
    }
  }

  lemma NoCrLfInEmpty()
    ensures !HasCrLf("")
  {
  }

  lemma LinesOfNonempty(s: string)
    requires s != ""
    ensures LinesOf(s) != []
  {
  }

  lemma SameParts(a: string, b: string, line: string, rest: string)
    requires a == Chomp(line) && |b| <= |rest|
    ensures a + "\n" + b == line + "\n" + rest <==> a == line && b == rest
  {
    var x, y := a + "\n" + b, line + "\n" + rest;
    if x == y {
      assert |a| == |line| && |b| == |rest|;
      assert x[..|a|] == a && y[..|line|] == line;
      assert x[|a| + 1..] == b && y[|line| + 1..] == rest;
    }
  }

  /** Taking a file apart and writing it back untouched restores it exactly when it has no CRLF line
      ending and is not a single newline: a patch rewrites every CRLF of the file. */
  lemma UntouchedFile(s: string)
    ensures FileText(LinesOf(s), EndsInNewline(s)) == s <==> !HasCrLf(s) && s != "\n"
  {
    if s != "" {
      ClosedRestores(s);
      LinesOfNonempty(s);
      JoinEmpty(LinesOf(s));
      if LinesOf(s) == [""] {
        OnlyNewlines(s);
      }
    }
  }

  lemma OnlyNewlines(s: string)
    requires LinesOf(s) == [""]
    ensures s == "\n" || s == "\r\n"
    ensures s == "\r\n" ==> HasCrLf(s)
  {
    IndexOfMeaning(s, '\n');
    var at := IndexOf(s, '\n');
    if at.Some? {
      var line, rest := s[..at.value], s[at.value + 1..];
      assert s == line + "\n" + rest;
      LinesOfCons(line, rest);
      assert |LinesOf(rest)| == 0 && [Chomp(line)][0] == LinesOf(s)[0] == "";
      assert line == "" || line == "\r";
      HasCrLfCons(line, rest);
    }
  }
}
