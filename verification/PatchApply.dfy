/** Applying accepted splices (crates/tools/src/fs.rs, `EditFile::run`): the loop works on the list in
    place from the last splice to the first; the meaning is one left-to-right pass over the original. */
module PatchApplication {
  import opened Wrappers
  import opened Llm
  import opened Hashlines
  import opened TextLines
  import opened Patches

  /** The splices address `from..count` in ascending order, one after the other. */
  ghost predicate Ready(ss: seq<Splice>, from: nat, count: nat) {
    if ss == [] then from <= count
    else from <= ss[0].start <= ss[0].end <= count && Ready(ss[1..], ss[0].end, count)
  }

  lemma {:induction false} ApplicableReady(ss: seq<Splice>, from: nat, count: nat)
    requires Applicable(ss, count) && from <= count && (ss != [] ==> from <= ss[0].start)
    ensures Ready(ss, from, count)
  {
    if ss != [] {
      ApplicableTail(ss, count);
      if |ss| > 1 {
        assert ss[1..][0] == ss[1];
      }
      ApplicableReady(ss[1..], ss[0].end, count);
    }
  }

  /** Simultaneous substitution: copy the original from `from` on, each span replaced by its content. */
  ghost function Merge(lines: seq<string>, ss: seq<Splice>, from: nat): seq<string>
    requires Ready(ss, from, |lines|)
    decreases |ss|
  {
    if ss == [] then lines[from..]
    else lines[from..ss[0].start] + ss[0].content + Merge(lines, ss[1..], ss[0].end)
  }

  lemma Regroup(a: seq<string>, b: seq<string>, c: seq<string>, d: seq<string>)
    ensures (a + b) + c + d == a + (b + c + d)
  {
  }

  lemma {:induction false} MergeFrom(lines: seq<string>, ss: seq<Splice>, from: nat, later: nat)
    requires Ready(ss, later, |lines|) && from <= later
    ensures Ready(ss, from, |lines|)
    ensures Merge(lines, ss, from) == lines[from..later] + Merge(lines, ss, later)
  {
    if ss == [] {
      assert lines[from..] == lines[from..later] + lines[later..];
    } else {
      assert lines[from..ss[0].start] == lines[from..later] + lines[later..ss[0].start];
      Regroup(lines[from..later], lines[later..ss[0].start], ss[0].content, Merge(lines, ss[1..], ss[0].end));
    }
  }

  lemma {:induction false} ReadyDrop(ss: seq<Splice>, from: nat, count: nat, k: nat)
    requires Ready(ss, from, count) && k < |ss|
    ensures from <= ss[k].start <= ss[k].end <= count && Ready(ss[k + 1..], ss[k].end, count)
    ensures Ready(ss[k..], ss[k].start, count)
    ensures k > 0 ==> ss[k - 1].end <= ss[k].start
  {
    if k > 0 {
      ReadyDrop(ss[1..], ss[0].end, count, k - 1);
      assert ss[1..][k - 1] == ss[k] && ss[1..][k..] == ss[k + 1..] && ss[1..][k - 1..] == ss[k..];
      if k > 1 {
        assert ss[1..][k - 2] == ss[k - 1];
      }
    } else {
      assert ss[0..] == ss;
    }
  }

  // One turn of the reverse loop.
  lemma SpliceStep(lines: seq<string>, ss: seq<Splice>, k: nat, at: nat, out: seq<string>)
    requires Ready(ss, 0, |lines|) && k < |ss|
    requires ss[k].end <= at && Ready(ss[k + 1..], at, |lines|)
    requires at <= |lines| && out == lines[..at] + Merge(lines, ss[k + 1..], at)
    ensures Ready(ss[k..], ss[k].start, |lines|) && |out| >= ss[k].end >= ss[k].start
    ensures out[..ss[k].start] + ss[k].content + out[ss[k].end..]
         == lines[..ss[k].start] + Merge(lines, ss[k..], ss[k].start)
  {
    var s := ss[k];
    ReadyDrop(ss, 0, |lines|, k);
    MergeFrom(lines, ss[k + 1..], s.end, at);
    assert ss[k..][0] == s && ss[k..][1..] == ss[k + 1..];
    var tail := Merge(lines, ss[k + 1..], at);
    assert out[..s.start] == lines[..s.start];
    assert out[s.end..] == lines[s.end..at] + tail;
    assert lines[s.start..s.start] == [];
  }

  /** `out.splice` from the last splice to the first: every index it uses is still an index of the original. */
  method ApplySplices(lines: seq<string>, ss: seq<Splice>) returns (out: seq<string>)
    requires Ready(ss, 0, |lines|)
    ensures out == Merge(lines, ss, 0)
  {
    out := lines;
    var k := |ss|;
    ghost var at: nat := |lines|;
    assert Ready([], at, |lines|) && lines == lines[..at] + Merge(lines, [], at);
    assert ss[k..] == [];
    if k > 0 {
      ReadyDrop(ss, 0, |lines|, k - 1);
    }
    while k > 0
      invariant k <= |ss| && at <= |lines| && Ready(ss[k..], at, |lines|)
      invariant k > 0 ==> ss[k - 1].end <= at
      invariant out == lines[..at] + Merge(lines, ss[k..], at)
    {
      k := k - 1;
      SpliceStep(lines, ss, k, at, out);
      ReadyDrop(ss, 0, |lines|, k);
      out := out[..ss[k].start] + ss[k].content + out[ss[k].end..];
      at := ss[k].start;
    }
    assert ss[0..] == ss;
    MergeFrom(lines, ss, 0, at);
  }

  // ---------------------------------------------------------------- where everything ends up

  function Growth(s: Splice): int {
    |s.content| - (s.end - s.start)
  }

  /** The net growth of the splices that end at or before the original index `i`. */
  function Shift(ss: seq<Splice>, i: nat): int {
    if ss == [] then 0
    else (if ss[0].end <= i then Growth(ss[0]) else 0) + Shift(ss[1..], i)
  }

  ghost predicate Covered(ss: seq<Splice>, i: nat) {
    exists s :: s in ss && s.start <= i < s.end
  }

  lemma {:induction false} ShiftBeyond(ss: seq<Splice>, from: nat, count: nat, i: nat)
    requires Ready(ss, from, count) && i < from
    ensures Shift(ss, i) == 0
  {
    if ss != [] {
      ShiftBeyond(ss[1..], ss[0].end, count, i);
    }
  }

  lemma UncoveredTail(ss: seq<Splice>, i: nat)
    requires ss != [] && !Covered(ss, i)
    ensures !Covered(ss[1..], i) && !(ss[0].start <= i < ss[0].end)
  {
    assert ss[0] in ss;
    forall s | s in ss[1..]
      ensures s in ss
    {
    }
  }

  /** An uncovered line survives, moved by the growth of the splices before it. */
  lemma {:induction false} LineSurvives(lines: seq<string>, ss: seq<Splice>, from: nat, i: nat)
    requires Ready(ss, from, |lines|) && from <= i < |lines| && !Covered(ss, i)
    ensures 0 <= i - from + Shift(ss, i) < |Merge(lines, ss, from)|
    ensures Merge(lines, ss, from)[i - from + Shift(ss, i)] == lines[i]
  {
    if ss != [] {
      var s, rest := ss[0], Merge(lines, ss[1..], ss[0].end);
      UncoveredTail(ss, i);
      if i < s.start {
        ShiftBeyond(ss[1..], s.end, |lines|, i);
        assert Merge(lines, ss, from)[i - from] == lines[from..s.start][i - from];
      } else {
        LineSurvives(lines, ss[1..], s.end, i);
        var j := i - s.end + Shift(ss[1..], i);
        assert Merge(lines, ss, from)[s.start - from + |s.content| + j] == rest[j];
      }
    }
  }

  /** Surviving lines keep their order. */
  lemma SurvivorsKeepOrder(lines: seq<string>, ss: seq<Splice>, from: nat, i: nat, j: nat)
    requires Ready(ss, from, |lines|) && from <= i < j < |lines| && !Covered(ss, i) && !Covered(ss, j)
    ensures i + Shift(ss, i) < j + Shift(ss, j)
    decreases |ss|
  {
    if ss != [] {
      UncoveredTail(ss, i);
      UncoveredTail(ss, j);
      if i < ss[0].start {
        ShiftBeyond(ss, i + 1, |lines|, i);
        LineSurvives(lines, ss, i + 1, j);
      } else {
        SurvivorsKeepOrder(lines, ss[1..], ss[0].end, i, j);
      }
    }
  }

  lemma ShiftCons(ss: seq<Splice>, k: nat, i: nat)
    requires 0 < k <= |ss| && ss[0].end <= i
    ensures Shift(ss[..k], i) == Growth(ss[0]) + Shift(ss[1..][..k - 1], i)
  {
    assert ss[1..][..k - 1] == ss[..k][1..];
  }

  lemma ShiftBehind(ss: seq<Splice>, from: nat, n: nat, k: nat)
    requires Ready(ss, from, n) && 0 < k < |ss|
    ensures Shift(ss[..k], ss[k].start) == Growth(ss[0]) + Shift(ss[1..][..k - 1], ss[k].start)
  {
    ReadyDrop(ss[1..], ss[0].end, n, k - 1);
    ShiftCons(ss, k, ss[k].start);
  }

  /** `content` stands in `text` from index `at` on. */
  ghost predicate StandsAt(text: seq<string>, at: int, content: seq<string>) {
    0 <= at && at + |content| <= |text| && text[at..at + |content|] == content
  }

  lemma StandsBeyond(head: seq<string>, rest: seq<string>, at: int, content: seq<string>)
    requires StandsAt(rest, at, content)
    ensures StandsAt(head + rest, |head| + at, content)
  {
    assert (head + rest)[|head| + at..|head| + at + |content|] == rest[at..at + |content|];
  }

  lemma StandsFirst(a: seq<string>, content: seq<string>, b: seq<string>)
    ensures StandsAt(a + content + b, |a|, content)
  {
    assert (a + content + b)[|a|..|a| + |content|] == content;
  }

  /** Each splice's content stands in the result where its span stood, moved by the splices before it. */
  lemma {:induction false} ContentLands(lines: seq<string>, ss: seq<Splice>, from: nat, k: nat)
    requires Ready(ss, from, |lines|) && k < |ss|
    ensures StandsAt(Merge(lines, ss, from), ss[k].start - from + Shift(ss[..k], ss[k].start), ss[k].content)
  {
    var first, gap := ss[0], lines[from..ss[0].start];
    if k == 0 {
      StandsFirst(gap, first.content, Merge(lines, ss[1..], first.end));
    } else {
      ContentLands(lines, ss[1..], first.end, k - 1);
      ShiftBehind(ss, from, |lines|, k);
      var rest := Merge(lines, ss[1..], first.end);
      assert Merge(lines, ss, from) == (gap + first.content) + rest;
      hide Shift, Ready, StandsAt, Merge;
      assert ss[1..][k - 1] == ss[k];
      var at := ss[k].start - first.end + Shift(ss[1..][..k - 1], ss[k].start);
      StandsBeyond(gap + first.content, rest, at, ss[k].content);
    }
  }

  function TotalGrowth(ss: seq<Splice>): int {
    if ss == [] then 0 else Growth(ss[0]) + TotalGrowth(ss[1..])
  }

  /** Nothing else is in the result: it holds the uncovered lines and the contents, and no more. */
  lemma {:induction false} MergedLength(lines: seq<string>, ss: seq<Splice>, from: nat)
    requires Ready(ss, from, |lines|)
    ensures |Merge(lines, ss, from)| == |lines| - from + TotalGrowth(ss)
  {
    if ss != [] {
      MergedLength(lines, ss[1..], ss[0].end);
    }
  }

  lemma {:induction false} MergedMembers(lines: seq<string>, ss: seq<Splice>, from: nat, line: string)
    requires Ready(ss, from, |lines|) && line in Merge(lines, ss, from)
    ensures line in lines || exists s :: s in ss && line in s.content
  {
    if ss != [] {
      if line in Merge(lines, ss[1..], ss[0].end) {
        MergedMembers(lines, ss[1..], ss[0].end, line);
      } else if line in ss[0].content {
        assert ss[0] in ss;
      }
    }
  }

  // ---------------------------------------------------------------- the whole tool call

  /** What a patch call must produce: the outcome as a function of the resolved hunks alone. */
  ghost predicate PatchOutcome(hash: string -> string, text: string, hunks: seq<Hunk>,
                               r: Result<(string, nat, nat), PatchError>)
  {
    var lines := LinesOf(text);
    if hunks == [] then r == Err(InvalidInput(EmptyPatch))
    else
      var resolved := ResolveAll(hash, lines, hunks);
      if resolved.Err? then r == Err(resolved.error)
      else if !AllClear(multiset(resolved.value.0)) then r == Err(InvalidInput(Overlap))
      else exists ss: seq<Splice> ::
        && multiset(ss) == multiset(resolved.value.0) && Applicable(ss, |lines|) && Ready(ss, 0, |lines|)
        && r == Ok((FileText(Merge(lines, ss, 0), EndsInNewline(text)), |ss|, resolved.value.1))
  }

  /** The patch mode of `EditFile::run`: new text, number of hunks, anchors that had moved. */
  method EditPatch(hash: string -> string, text: string, hunks: seq<Hunk>)
    returns (r: Result<(string, nat, nat), PatchError>)
    ensures PatchOutcome(hash, text, hunks, r)
  {
    hide ResolveAll, AllClear, Applicable, FileText, LinesOf;
    if hunks == [] {
      return Err(InvalidInput(EmptyPatch));
    }
    var lines := LinesOf(text);
    var parsed := ParseHunks(hash, lines, hunks);
    if parsed.Err? {
      return Err(parsed.error);
    }
    var (splices, moved) := parsed.value;
    AcceptedReady(splices, |lines|);
    var out := ApplySplices(lines, splices);
    r := Ok((FileText(out, EndsInNewline(text)), |splices|, moved));
  }

  // The patch of one hunk: its splice, applied.
  lemma OneSplice(hash: string -> string, text: string, hunk: Hunk, splice: Splice, moved: nat,
                  r: Result<(string, nat, nat), PatchError>)
    requires PatchOutcome(hash, text, [hunk], r) && splice.start <= splice.end <= |LinesOf(text)|
    requires ResolveHunk(hash, LinesOf(text), hunk) == Ok(Resolved(splice, moved))
    ensures var lines := LinesOf(text);
      r == Ok((FileText(lines[..splice.start] + splice.content + lines[splice.end..], EndsInNewline(text)), 1, moved))
  {
    hide ResolveHunk, FileText, LinesOf, Applicable;
    var lines := LinesOf(text);
    assert [hunk][..0] == [] && ResolveAll(hash, lines, []) == Ok(([], 0));
    assert ResolveAll(hash, lines, [hunk]) == Ok(([splice], moved)) by {
      assert [] + [splice] == [splice];
    }
    assert AllClear(multiset([splice]));
    var ss: seq<Splice> :| && multiset(ss) == multiset([splice]) && Applicable(ss, |lines|) && Ready(ss, 0, |lines|)
      && r == Ok((FileText(Merge(lines, ss, 0), EndsInNewline(text)), |ss|, moved));
    assert |multiset(ss)| == |ss|;
    assert ss[0] in multiset(ss);
    assert ss == [splice];
    assert Merge(lines, ss[1..], splice.end) == lines[splice.end..];
  }

  /** One hunk, end to end and however its anchor moved: the new file is the old one with exactly the line
      the anchor names replaced or taken out, or with the new lines right behind it. */
  lemma OneHunkEdits(hash: string -> string, text: string, hunk: Hunk, anchor: (nat, string), k: nat, moved: bool,
                     r: Result<(string, nat, nat), PatchError>)
    requires PatchOutcome(hash, text, [hunk], r)
    requires hunk.anchor.Some? && ParseAnchor(hunk.anchor.value) == Ok(anchor) && hunk.to.None?
    requires Names(hash, LinesOf(text), anchor, k, moved)
    ensures var lines, added, n := LinesOf(text), TextLinesOf(hunk), if moved then 1 else 0;
      && k < |lines|
      && (Substitutes(hunk) ==>
            r == Ok((FileText(lines[..k] + added + lines[k + 1..], EndsInNewline(text)), 1, n)))
      && (hunk.op == Some("insert_after") && hunk.content.Some? ==>
            r == Ok((FileText(lines[..k + 1] + added + lines[k + 1..], EndsInNewline(text)), 1, n)))
  {
    hide ResolveHunk, FileText, PatchOutcome, TextLinesOf, ParseAnchor, LinesOf;
    var lines := LinesOf(text);
    HunkLands(hash, lines, hunk, anchor, k, moved);
    var n := if moved then 1 else 0;
    if Substitutes(hunk) {
      OneSplice(hash, text, hunk, Splice(k, k + 1, TextLinesOf(hunk)), n, r);
    }
    if hunk.op == Some("insert_after") && hunk.content.Some? {
      OneSplice(hash, text, hunk, Splice(k + 1, k + 1, TextLinesOf(hunk)), n, r);
    }
  }

  /** With a second anchor, exactly the lines between the two, both included. */
  lemma OneSpanEdits(hash: string -> string, text: string, hunk: Hunk, anchor: (nat, string), k: nat, moved: bool,
                     last: (nat, string), j: nat, lastMoved: bool, r: Result<(string, nat, nat), PatchError>)
    requires PatchOutcome(hash, text, [hunk], r) && Substitutes(hunk) && k <= j
    requires hunk.anchor.Some? && ParseAnchor(hunk.anchor.value) == Ok(anchor)
    requires hunk.to.Some? && ParseAnchor(hunk.to.value) == Ok(last)
    requires Names(hash, LinesOf(text), anchor, k, moved) && Names(hash, LinesOf(text), last, j, lastMoved)
    ensures var lines := LinesOf(text);
      && j < |lines|
      && r == Ok((FileText(lines[..k] + TextLinesOf(hunk) + lines[j + 1..], EndsInNewline(text)), 1,
                  (if moved then 1 else 0) + (if lastMoved then 1 else 0)))
  {
    hide ResolveHunk, FileText, PatchOutcome, TextLinesOf, ParseAnchor, LinesOf;
    SpanLands(hash, LinesOf(text), hunk, anchor, k, moved, last, j, lastMoved);
    var n := (if moved then 1 else 0) + (if lastMoved then 1 else 0);
    OneSplice(hash, text, hunk, Splice(k, j + 1, TextLinesOf(hunk)), n, r);
  }

  lemma AcceptedReady(ss: seq<Splice>, count: nat)
    requires Applicable(ss, count)
    ensures Ready(ss, 0, count)
  {
    ApplicableReady(ss, 0, count);
  }

  /** The order in which the hunks are listed never matters: same acceptance, same file. */
  lemma HunkOrderIrrelevant(hash: string -> string, text: string, hunks: seq<Hunk>, other: seq<Hunk>,
                            r: Result<(string, nat, nat), PatchError>, q: Result<(string, nat, nat), PatchError>)
    requires multiset(hunks) == multiset(other)
    requires PatchOutcome(hash, text, hunks, r) && PatchOutcome(hash, text, other, q)
    ensures r.Ok? <==> q.Ok?
    ensures r.Ok? ==> r == q
  {
    hide ResolveAll, AllClear, Applicable, FileText, LinesOf, Ready, Merge;
    var lines := LinesOf(text);
    assert |multiset(hunks)| == |hunks| && |multiset(other)| == |other|;
    if ResolveAll(hash, lines, hunks).Ok? {
      PermutedHunks(hash, lines, hunks, other);
    } else if ResolveAll(hash, lines, other).Ok? {
      PermutedHunks(hash, lines, other, hunks);
    }
    if r.Ok? && q.Ok? {
      var splices := ResolveAll(hash, lines, hunks).value;
      var ss :| && multiset(ss) == multiset(splices.0) && Applicable(ss, |lines|) && Ready(ss, 0, |lines|)
                && r == Ok((FileText(Merge(lines, ss, 0), EndsInNewline(text)), |ss|, splices.1));
      var others := ResolveAll(hash, lines, other).value;
      var tt :| && multiset(tt) == multiset(others.0) && Applicable(tt, |lines|) && Ready(tt, 0, |lines|)
                && q == Ok((FileText(Merge(lines, tt, 0), EndsInNewline(text)), |tt|, others.1));
      SortedUnique(ss, tt, |lines|);
    }
  }

  // ---------------------------------------------------------------- reading the new file back

  ghost predicate Unbroken(lines: seq<string>) {
    forall p :: p in lines ==> '\n' !in p
  }

  lemma HunkUnbroken(hash: string -> string, lines: seq<string>, hunk: Hunk)
    requires ResolveHunk(hash, lines, hunk).Ok?
    ensures Unbroken(ResolveHunk(hash, lines, hunk).value.splice.content)
  {
    hide ParseAnchor, Resolve, SplitLines;
  }

  lemma {:induction false} HunksUnbroken(hash: string -> string, lines: seq<string>, hunks: seq<Hunk>)
    requires ResolveAll(hash, lines, hunks).Ok?
    ensures forall s :: s in ResolveAll(hash, lines, hunks).value.0 ==> Unbroken(s.content)
  {
    hide ResolveHunk, Unbroken;
    if hunks != [] {
      HunksUnbroken(hash, lines, hunks[..|hunks| - 1]);
      HunkUnbroken(hash, lines, hunks[|hunks| - 1]);
    }
  }

  /** The next read of a patched file shows the merged lines, exactly when no line that a newline ends
      finishes in a carriage return and the last line can be seen. */
  lemma PatchedFileRereads(hash: string -> string, text: string, hunks: seq<Hunk>, ss: seq<Splice>)
    requires ResolveAll(hash, LinesOf(text), hunks).Ok?
    requires multiset(ss) == multiset(ResolveAll(hash, LinesOf(text), hunks).value.0)
    requires Ready(ss, 0, |LinesOf(text)|)
    ensures var merged, newline := Merge(LinesOf(text), ss, 0), EndsInNewline(text);
      LinesOf(FileText(merged, newline)) == merged <==>
        || merged == []
        || (NoReturns(merged, newline) && (merged[|merged| - 1] != "" || (newline && |merged| >= 2)))
  {
    hide ResolveAll, FileText, NoReturns, Ready, Merge;
    var lines := LinesOf(text);
    HunksUnbroken(hash, lines, hunks);
    forall line | line in Merge(lines, ss, 0)
      ensures '\n' !in line
    {
      MergedMembers(lines, ss, 0, line);
      if line !in lines {
        var s :| s in ss && line in s.content;
        assert s in multiset(ss);
      }
    }
    FileRereads(Merge(lines, ss, 0), EndsInNewline(text));
  }
}
