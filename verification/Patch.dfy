/** Hashline patches (crates/tools/src/fs.rs `parse_hunks`, `EditFile::run`): hunks become splices of
    the original lines, which are checked, sorted, and applied from the last to the first in place. */
module Patches {
  import opened Wrappers
  import opened Hashlines
  import opened TextLines

  /** One hunk as the model sent it; every field may be missing. */
  datatype Hunk = Hunk(op: Option<string>, anchor: Option<string>, to: Option<string>, content: Option<string>)

  /** Replace the lines `start..end` of the original with `content`. */
  datatype Splice = Splice(start: nat, end: nat, content: seq<string>)

  /** A resolved hunk and how many of its anchors had moved. */
  datatype Resolved = Resolved(splice: Splice, moved: nat)

  function One(moved: bool): nat {
    if moved then 1 else 0
  }

  function InsertAt(hash: string -> string, lines: seq<string>, hunk: Hunk, line: nat, token: string)
    : Result<Resolved, PatchError>
  {
    if hunk.to.Some? then Err(InvalidInput(InsertTakesNoTo))
    else if hunk.content.None? then Err(InvalidInput(InsertNeedsContent))
    else if line == 0 then Ok(Resolved(Splice(0, 0, SplitLines(hunk.content.value)), 0))
    else match Resolve(hash, lines, line, token)
      case Err(e) => Err(e)
      case Ok((at, moved)) => Ok(Resolved(Splice(at + 1, at + 1, SplitLines(hunk.content.value)), One(moved)))
  }

  function Span(hash: string -> string, lines: seq<string>, to: Option<string>, start: nat, moved: bool,
                content: seq<string>): Result<Resolved, PatchError> {
    match to
    case None => Ok(Resolved(Splice(start, start + 1, content), One(moved)))
    case Some(raw) =>
      match ParseAnchor(raw)
      case Err(e) => Err(e)
      case Ok((line, token)) =>
        if line == 0 then Err(InvalidInput(ToMustBeRealLine))
        else match Resolve(hash, lines, line, token)
          case Err(e) => Err(e)
          case Ok((end, movedTo)) =>
            if end < start then Err(InvalidInput(ToAboveAnchor))
            else Ok(Resolved(Splice(start, end + 1, content), One(moved) + One(movedTo)))
  }

  function ReplaceAt(hash: string -> string, lines: seq<string>, hunk: Hunk, delete: bool, line: nat, token: string)
    : Result<Resolved, PatchError>
  {
    if line == 0 then Err(InvalidInput(ZeroOnlyForInsert))
    else if !delete && hunk.content.None? then Err(InvalidInput(ReplaceNeedsContent))
    else if delete && hunk.content.Some? then Err(InvalidInput(DeleteTakesNoContent))
    else match Resolve(hash, lines, line, token)
      case Err(e) => Err(e)
      case Ok((start, moved)) =>
        Span(hash, lines, hunk.to, start, moved, if delete then [] else SplitLines(hunk.content.value))
  }

  /** One hunk against the original lines. */
  function ResolveHunk(hash: string -> string, lines: seq<string>, hunk: Hunk): Result<Resolved, PatchError> {
    var op := if hunk.op.Some? then hunk.op.value else "replace";
    if hunk.anchor.None? then Err(InvalidInput(MissingAnchor))
    else match ParseAnchor(hunk.anchor.value)
      case Err(e) => Err(e)
      case Ok((line, token)) =>
        if op == "insert_after" then InsertAt(hash, lines, hunk, line, token)
        else if op == "replace" || op == "delete" then ReplaceAt(hash, lines, hunk, op == "delete", line, token)
        else Err(InvalidInput(UnknownOp))
  }

  predicate InRange(s: Splice, count: nat) {
    s.start <= s.end <= count
  }

  lemma SpanInRange(hash: string -> string, lines: seq<string>, to: Option<string>, start: nat, moved: bool, content: seq<string>)
    requires start < |lines|
    ensures var r := Span(hash, lines, to, start, moved, content);
      r.Ok? ==> InRange(r.value.splice, |lines|)
  {
    hide ParseAnchor, Resolve;
    if to.Some? && ParseAnchor(to.value).Ok? {
      var (line, token) := ParseAnchor(to.value).value;
      ResolveMeaning(hash, lines, line, token);
    }
  }

  /** A resolved hunk addresses lines that exist: a line of the original, or a gap between lines. */
  lemma ResolvedInRange(hash: string -> string, lines: seq<string>, hunk: Hunk)
    ensures var r := ResolveHunk(hash, lines, hunk);
      r.Ok? ==> InRange(r.value.splice, |lines|)
  {
    hide ParseAnchor, Resolve, Span, SplitLines;
    if hunk.anchor.Some? && ParseAnchor(hunk.anchor.value).Ok? {
      var (line, token) := ParseAnchor(hunk.anchor.value).value;
      ResolveMeaning(hash, lines, line, token);
      var at := Resolve(hash, lines, line, token);
      if at.Ok? {
        var delete := hunk.op == Some("delete");
        if delete || hunk.content.Some? {
          SpanInRange(hash, lines, hunk.to, at.value.0, at.value.1, if delete then [] else SplitLines(hunk.content.value));
        }
      }
    }
  }

  lemma TopOfFile()
    ensures ParseAnchor("0") == Ok((0, ""))
  {
  }

  /** Hunks written against the file just read do what they say: the anchor printed for line `i` replaces
      or deletes exactly that line, or inserts right behind it, without counting a move. */
  lemma HunkOnReadFile(hash: string -> string, lines: seq<string>, i: nat, content: string)
    requires HexHash(hash) && i < |lines| <= MAX_USIZE
    ensures var first, text := Some(Anchor(hash, i, lines[i])), SplitLines(content);
      && ResolveHunk(hash, lines, Hunk(Some("replace"), first, None, Some(content))) == Ok(Resolved(Splice(i, i + 1, text), 0))
      && ResolveHunk(hash, lines, Hunk(None, first, None, Some(content))) == Ok(Resolved(Splice(i, i + 1, text), 0))
      && ResolveHunk(hash, lines, Hunk(Some("delete"), first, None, None)) == Ok(Resolved(Splice(i, i + 1, []), 0))
      && ResolveHunk(hash, lines, Hunk(Some("insert_after"), first, None, Some(content)))
         == Ok(Resolved(Splice(i + 1, i + 1, text), 0))
      && ResolveHunk(hash, lines, Hunk(Some("insert_after"), Some("0"), None, Some(content)))
         == Ok(Resolved(Splice(0, 0, text), 0))
  {
    AnchorParses(hash, i, lines[i]);
    AnchorRoundTrip(hash, lines, i);
    TopOfFile();
    hide ParseAnchor, Resolve, Anchor, SplitLines, HexHash;
  }

  lemma SpanOnReadFile(hash: string -> string, lines: seq<string>, i: nat, j: nat, text: seq<string>)
    requires HexHash(hash) && i < |lines| <= MAX_USIZE && j < |lines|
    ensures Span(hash, lines, Some(Anchor(hash, j, lines[j])), i, false, text)
         == if i <= j then Ok(Resolved(Splice(i, j + 1, text), 0)) else Err(InvalidInput(ToAboveAnchor))
  {
    AnchorParses(hash, j, lines[j]);
    AnchorRoundTrip(hash, lines, j);
    hide ParseAnchor, Resolve, Anchor, HexHash;
  }

  /** With a second anchor they replace or delete the lines `i` to `j`, both included, unless `j` is above. */
  lemma SpanHunkOnReadFile(hash: string -> string, lines: seq<string>, i: nat, j: nat, content: string)
    requires HexHash(hash) && i < |lines| <= MAX_USIZE && j < |lines|
    ensures var first, last, text := Some(Anchor(hash, i, lines[i])), Some(Anchor(hash, j, lines[j])), SplitLines(content);
      && ResolveHunk(hash, lines, Hunk(Some("replace"), first, last, Some(content)))
         == (if i <= j then Ok(Resolved(Splice(i, j + 1, text), 0)) else Err(InvalidInput(ToAboveAnchor)))
      && ResolveHunk(hash, lines, Hunk(Some("delete"), first, last, None))
         == (if i <= j then Ok(Resolved(Splice(i, j + 1, []), 0)) else Err(InvalidInput(ToAboveAnchor)))
  {
    AnchorParses(hash, i, lines[i]);
    AnchorRoundTrip(hash, lines, i);
    SpanOnReadFile(hash, lines, i, j, SplitLines(content));
    SpanOnReadFile(hash, lines, i, j, []);
    hide ParseAnchor, Resolve, Anchor, SplitLines, HexHash, Span;
  }

  // ---------------------------------------------------------------- where any hunk lands

  /** The parsed anchor names line `k`: in place when the numbered line still has the hash, and otherwise,
      as moved, when `k` is the only line that has it. */
  ghost predicate Names(hash: string -> string, lines: seq<string>, anchor: (nat, string), k: nat, moved: bool) {
    var inPlace := 1 <= anchor.0 <= |lines| && hash(lines[anchor.0 - 1]) == anchor.1;
    anchor.0 >= 1 && k < |lines|
    && if moved then !inPlace && OnlyMatch(hash, lines, anchor.1, k) else inPlace && k == anchor.0 - 1
  }

  lemma NamesResolve(hash: string -> string, lines: seq<string>, anchor: (nat, string))
    ensures forall k: nat, moved :: Names(hash, lines, anchor, k, moved) ==> Resolve(hash, lines, anchor.0, anchor.1) == Ok((k, moved))
    ensures anchor.0 >= 1 && Resolve(hash, lines, anchor.0, anchor.1).Ok? ==>
      var (k, moved) := Resolve(hash, lines, anchor.0, anchor.1).value; Names(hash, lines, anchor, k, moved)
  {
    ResolveMeaning(hash, lines, anchor.0, anchor.1);
    hide Resolve;
    forall k: nat, moved | Names(hash, lines, anchor, k, moved)
      ensures Resolve(hash, lines, anchor.0, anchor.1) == Ok((k, moved))
    {
    }
  }

  /** A hunk that asks for lines to be replaced, with the new text, or deleted, without one. */
  predicate Substitutes(hunk: Hunk) {
    if hunk.op == Some("delete") then hunk.content.None?
    else hunk.content.Some? && (hunk.op.None? || hunk.op == Some("replace"))
  }

  /** The lines a hunk brings. */
  function TextLinesOf(hunk: Hunk): seq<string> {
    if hunk.content.None? then [] else SplitLines(hunk.content.value)
  }

  /** Where a hunk lands, however its anchor moved: a replacement or a deletion takes exactly the line the
      anchor names, an insertion the gap right behind it, and the report counts the anchor if it moved. */
  lemma HunkLands(hash: string -> string, lines: seq<string>, hunk: Hunk, anchor: (nat, string), k: nat, moved: bool)
    requires hunk.anchor.Some? && ParseAnchor(hunk.anchor.value) == Ok(anchor) && hunk.to.None?
    requires Names(hash, lines, anchor, k, moved)
    ensures Substitutes(hunk) ==>
      ResolveHunk(hash, lines, hunk) == Ok(Resolved(Splice(k, k + 1, TextLinesOf(hunk)), if moved then 1 else 0))
    ensures hunk.op == Some("insert_after") && hunk.content.Some? ==>
      ResolveHunk(hash, lines, hunk) == Ok(Resolved(Splice(k + 1, k + 1, TextLinesOf(hunk)), if moved then 1 else 0))
  {
    NamesResolve(hash, lines, anchor);
    NoLineZero(hash, lines, anchor);
    hide ParseAnchor, Resolve, SplitLines, Names;
  }

  /** With a second anchor it takes the lines from the one to the other, both included, and counts how many
      of the two moved; it is refused when the second is above the first. */
  lemma SpanLands(hash: string -> string, lines: seq<string>, hunk: Hunk, anchor: (nat, string), k: nat, moved: bool,
                  last: (nat, string), j: nat, lastMoved: bool)
    requires hunk.anchor.Some? && ParseAnchor(hunk.anchor.value) == Ok(anchor) && Names(hash, lines, anchor, k, moved)
    requires hunk.to.Some? && ParseAnchor(hunk.to.value) == Ok(last) && Names(hash, lines, last, j, lastMoved)
    requires Substitutes(hunk)
    ensures ResolveHunk(hash, lines, hunk)
         == if j < k then Err(InvalidInput(ToAboveAnchor))
            else Ok(Resolved(Splice(k, j + 1, TextLinesOf(hunk)), (if moved then 1 else 0) + (if lastMoved then 1 else 0)))
  {
    NamesResolve(hash, lines, anchor);
    NamesResolve(hash, lines, last);
    NoLineZero(hash, lines, anchor);
    NoLineZero(hash, lines, last);
    hide ParseAnchor, Resolve, SplitLines, Names;
  }

  /** The anchor "0" inserts at the top and does nothing else. */
  lemma TopLands(hash: string -> string, lines: seq<string>, hunk: Hunk, token: string)
    requires hunk.anchor.Some? && ParseAnchor(hunk.anchor.value) == Ok((0, token))
    ensures hunk.op == Some("insert_after") && hunk.content.Some? && hunk.to.None? ==>
      ResolveHunk(hash, lines, hunk) == Ok(Resolved(Splice(0, 0, TextLinesOf(hunk)), 0))
    ensures hunk.op != Some("insert_after") ==> ResolveHunk(hash, lines, hunk).Err?
  {
    hide ParseAnchor, Resolve, SplitLines;
  }

  ghost predicate NamesSome(hash: string -> string, lines: seq<string>, anchor: (nat, string)) {
    exists k: nat, moved :: Names(hash, lines, anchor, k, moved)
  }

  /** The second anchor, read, names a line, and not one above the first. */
  ghost predicate SpanFits(hash: string -> string, lines: seq<string>, anchor: (nat, string), to: string) {
    && ParseAnchor(to).Ok?
    && exists k: nat, moved, j: nat, lastMoved ::
         && Names(hash, lines, anchor, k, moved) && Names(hash, lines, ParseAnchor(to).value, j, lastMoved) && k <= j
  }

  /** Which hunks resolve: those of a known shape whose anchors name lines, the second not above the first. */
  lemma HunkResolvesExactly(hash: string -> string, lines: seq<string>, hunk: Hunk)
    ensures ResolveHunk(hash, lines, hunk).Ok? <==>
      && hunk.anchor.Some? && ParseAnchor(hunk.anchor.value).Ok?
      && var anchor := ParseAnchor(hunk.anchor.value).value;
         || (hunk.op == Some("insert_after") && hunk.content.Some? && hunk.to.None?
             && (anchor.0 == 0 || NamesSome(hash, lines, anchor)))
         || (Substitutes(hunk) && NamesSome(hash, lines, anchor)
             && (hunk.to.None? || SpanFits(hash, lines, anchor, hunk.to.value)))
  {
    if hunk.anchor.Some? && ParseAnchor(hunk.anchor.value).Ok? {
      var anchor := ParseAnchor(hunk.anchor.value).value;
      ResolvesIfNamed(hash, lines, anchor);
      if hunk.to.Some? && NamesSome(hash, lines, anchor) {
        SpanResolves(hash, lines, hunk, anchor);
      }
    }
    hide ParseAnchor, Resolve, SplitLines, Names, NamesSome, SpanFits, Span;
  }

  lemma ResolvesIfNamed(hash: string -> string, lines: seq<string>, anchor: (nat, string))
    ensures anchor.0 >= 1 ==> (Resolve(hash, lines, anchor.0, anchor.1).Ok? <==> NamesSome(hash, lines, anchor))
    ensures NamesSome(hash, lines, anchor) ==> anchor.0 >= 1
  {
    NamesResolve(hash, lines, anchor);
    NoLineZero(hash, lines, anchor);
    hide Resolve, Names;
    if anchor.0 >= 1 && Resolve(hash, lines, anchor.0, anchor.1).Ok? {
      var (k, moved) := Resolve(hash, lines, anchor.0, anchor.1).value;
      assert Names(hash, lines, anchor, k, moved);
    }
    if NamesSome(hash, lines, anchor) {
      var k: nat, moved :| Names(hash, lines, anchor, k, moved);
      assert Resolve(hash, lines, anchor.0, anchor.1) == Ok((k, moved));
    }
  }

  lemma SpanResolves(hash: string -> string, lines: seq<string>, hunk: Hunk, anchor: (nat, string))
    requires NamesSome(hash, lines, anchor) && hunk.to.Some?
    ensures Resolve(hash, lines, anchor.0, anchor.1).Ok?
    ensures var (k, moved) := Resolve(hash, lines, anchor.0, anchor.1).value;
      forall content :: Span(hash, lines, hunk.to, k, moved, content).Ok? <==> SpanFits(hash, lines, anchor, hunk.to.value)
  {
    ResolvesIfNamed(hash, lines, anchor);
    NamesResolve(hash, lines, anchor);
    NoLineZero(hash, lines, anchor);
    if ParseAnchor(hunk.to.value).Ok? {
      NamesResolve(hash, lines, ParseAnchor(hunk.to.value).value);
      NoLineZero(hash, lines, ParseAnchor(hunk.to.value).value);
    }
    hide ParseAnchor, Resolve, Names;
  }

  /** What is wrong with a hunk that has no anchor, a bad one, or the wrong fields for what it asks. */
  lemma HunkComplaints(hash: string -> string, lines: seq<string>, hunk: Hunk)
    ensures var r := ResolveHunk(hash, lines, hunk);
      && (hunk.anchor.None? ==> r == Err(InvalidInput(MissingAnchor)))
      && (hunk.anchor.Some? && ParseAnchor(hunk.anchor.value).Err? ==> r == Err(ParseAnchor(hunk.anchor.value).error))
      && (hunk.anchor.Some? && ParseAnchor(hunk.anchor.value).Ok? ==>
            var top := ParseAnchor(hunk.anchor.value).value.0 == 0;
            match hunk.op
            case Some("insert_after") =>
              && (hunk.to.Some? ==> r == Err(InvalidInput(InsertTakesNoTo)))
              && (hunk.to.None? && hunk.content.None? ==> r == Err(InvalidInput(InsertNeedsContent)))
            case Some("delete") =>
              && (top ==> r == Err(InvalidInput(ZeroOnlyForInsert)))
              && (!top && hunk.content.Some? ==> r == Err(InvalidInput(DeleteTakesNoContent)))
            case Some("replace") =>
              && (top ==> r == Err(InvalidInput(ZeroOnlyForInsert)))
              && (!top && hunk.content.None? ==> r == Err(InvalidInput(ReplaceNeedsContent)))
            case None =>
              && (top ==> r == Err(InvalidInput(ZeroOnlyForInsert)))
              && (!top && hunk.content.None? ==> r == Err(InvalidInput(ReplaceNeedsContent)))
            case Some(_) => r == Err(InvalidInput(UnknownOp)))
  {
    hide ParseAnchor, Resolve, SplitLines, Span;
  }

  /** What is wrong with a second anchor that cannot be read, or is the top of the file. */
  lemma SpanComplaints(hash: string -> string, lines: seq<string>, hunk: Hunk, anchor: (nat, string), k: nat, moved: bool)
    requires hunk.anchor.Some? && ParseAnchor(hunk.anchor.value) == Ok(anchor) && Names(hash, lines, anchor, k, moved)
    requires Substitutes(hunk) && hunk.to.Some?
    ensures ParseAnchor(hunk.to.value).Err? ==> ResolveHunk(hash, lines, hunk) == Err(ParseAnchor(hunk.to.value).error)
    ensures ParseAnchor(hunk.to.value).Ok? && ParseAnchor(hunk.to.value).value.0 == 0 ==>
      ResolveHunk(hash, lines, hunk) == Err(InvalidInput(ToMustBeRealLine))
  {
    NamesResolve(hash, lines, anchor);
    NoLineZero(hash, lines, anchor);
    hide ParseAnchor, Resolve, SplitLines, Names;
  }

  lemma NoLineZero(hash: string -> string, lines: seq<string>, anchor: (nat, string))
    ensures forall k: nat, moved :: Names(hash, lines, anchor, k, moved) ==> anchor.0 != 0
  {
  }

  // ---------------------------------------------------------------- overlap

  /** The order the code sorts by. */
  predicate Before(a: Splice, b: Splice) {
    a.start < b.start || (a.start == b.start && a.end <= b.end)
  }

  ghost predicate SortedSplices(ss: seq<Splice>) {
    forall i, j :: 0 <= i < j < |ss| ==> Before(ss[i], ss[j])
  }

  predicate Touch(a: Splice, b: Splice) {
    b.start < a.end || b.start == a.start
  }

  /** Some adjacent pair touches: what the code checks, once the splices are sorted. */
  predicate AdjacentTouch(ss: seq<Splice>) {
    exists i :: 0 <= i < |ss| - 1 && Touch(ss[i], ss[i + 1])
  }

  /** Two splices that can be applied together in one way only: different starts, disjoint spans. */
  predicate Clear(a: Splice, b: Splice) {
    if a.start < b.start then a.end <= b.start
    else b.start < a.start && b.end <= a.start
  }

  /** Pairwise clear, whatever the order: a property of the multiset. */
  ghost predicate AllClear(ss: multiset<Splice>) {
    && (forall a :: a in ss ==> ss[a] == 1)
    && (forall a, b :: a in ss && b in ss && a != b ==> Clear(a, b))
  }

  lemma {:induction false} StartsAscend(ss: seq<Splice>, i: nat, j: nat)
    requires forall k :: 0 <= k < |ss| ==> ss[k].start <= ss[k].end
    requires !AdjacentTouch(ss) && i < j < |ss|
    ensures ss[i].end <= ss[j].start && ss[i].start < ss[j].start
    decreases j - i
  {
    assert !Touch(ss[j - 1], ss[j]);
    if i < j - 1 {
      StartsAscend(ss, i, j - 1);
    }
  }

  lemma InMultiset(ss: seq<Splice>, a: Splice) returns (i: nat)
    requires a in multiset(ss)
    ensures i < |ss| && ss[i] == a
  {
    assert a in ss;
    i :| 0 <= i < |ss| && ss[i] == a;
  }

  lemma {:induction false} CountOnce(ss: seq<Splice>, a: Splice)
    requires forall i, j :: 0 <= i < j < |ss| ==> ss[i] != ss[j]
    ensures multiset(ss)[a] <= 1
  {
    if ss != [] {
      var init, last := ss[..|ss| - 1], ss[|ss| - 1];
      CountOnce(init, a);
      assert ss == init + [last];
      if a == last {
        assert a !in init;
      }
    }
  }

  lemma {:induction false} CountTwice(ss: seq<Splice>, i: nat, j: nat)
    requires i < j < |ss| && ss[i] == ss[j]
    ensures multiset(ss)[ss[i]] >= 2
  {
    var init, last := ss[..|ss| - 1], ss[|ss| - 1];
    assert ss == init + [last];
    if j < |init| {
      CountTwice(init, i, j);
    } else {
      assert init[i] in multiset(init);
    }
  }

  /** The adjacent test on sorted splices is complete: it passes exactly when all splices are pairwise
      disjoint with distinct starts. */
  lemma OverlapCheckComplete(ss: seq<Splice>)
    requires SortedSplices(ss) && forall k :: 0 <= k < |ss| ==> ss[k].start <= ss[k].end
    ensures !AdjacentTouch(ss) <==> AllClear(multiset(ss))
  {
    if !AdjacentTouch(ss) {
      forall i, j | 0 <= i < j < |ss|
        ensures ss[i] != ss[j]
      {
        StartsAscend(ss, i, j);
      }
      forall a | a in multiset(ss)
        ensures multiset(ss)[a] == 1
      {
        CountOnce(ss, a);
      }
      forall a, b | a in multiset(ss) && b in multiset(ss) && a != b
        ensures Clear(a, b)
      {
        var i := InMultiset(ss, a);
        var j := InMultiset(ss, b);
        if i < j {
          StartsAscend(ss, i, j);
        } else {
          StartsAscend(ss, j, i);
        }
      }
    }
    if AllClear(multiset(ss)) {
      forall i | 0 <= i < |ss| - 1
        ensures !Touch(ss[i], ss[i + 1])
      {
        if ss[i] == ss[i + 1] {
          CountTwice(ss, i, i + 1);
        }
        assert ss[i] in multiset(ss) && ss[i + 1] in multiset(ss);
        assert Before(ss[i], ss[i + 1]);
      }
    }
  }

  // ---------------------------------------------------------------- parse_hunks

  /** Every hunk resolved, in the order given; the first failure ends it. */
  function ResolveAll(hash: string -> string, lines: seq<string>, hunks: seq<Hunk>): Result<(seq<Splice>, nat), PatchError> {
    if hunks == [] then Ok(([], 0))
    else match ResolveAll(hash, lines, hunks[..|hunks| - 1])
      case Err(e) => Err(e)
      case Ok((splices, moved)) =>
        match ResolveHunk(hash, lines, hunks[|hunks| - 1])
        case Err(e) => Err(e)
        case Ok(r) => Ok((splices + [r.splice], moved + r.moved))
  }

  /** Stable insertion behind everything that is not after it. */
  function Insert(ss: seq<Splice>, s: Splice): seq<Splice> {
    if ss == [] then [s]
    else if Before(ss[|ss| - 1], s) then ss + [s]
    else Insert(ss[..|ss| - 1], s) + [ss[|ss| - 1]]
  }

  lemma {:induction false} InsertSorts(ss: seq<Splice>, s: Splice)
    requires SortedSplices(ss)
    ensures SortedSplices(Insert(ss, s)) && multiset(Insert(ss, s)) == multiset(ss) + multiset{s}
  {
    if ss != [] {
      var init, last := ss[..|ss| - 1], ss[|ss| - 1];
      assert ss == init + [last];
      if Before(last, s) {
        forall i | 0 <= i < |ss|
          ensures Before(ss[i], s)
        {
          assert i < |init| ==> Before(ss[i], last);
        }
      } else {
        InsertSorts(init, s);
        var t := Insert(init, s);
        forall i | 0 <= i < |t|
          ensures Before(t[i], last)
        {
          assert t[i] in multiset(t);
          if t[i] != s {
            assert t[i] in multiset(init);
            var k := InMultiset(init, t[i]);
            assert Before(ss[k], ss[|ss| - 1]);
          }
        }
      }
    }
  }

  /** `sort_by_key`: a stable sort. */
  method Sort(ss: seq<Splice>) returns (sorted: seq<Splice>)
    ensures SortedSplices(sorted) && multiset(sorted) == multiset(ss)
    ensures forall i, j :: 0 <= i < j < |sorted| ==>
      sorted[i].start < sorted[j].start || (sorted[i].start == sorted[j].start && sorted[i].end <= sorted[j].end)
  {
    sorted := [];
    for i := 0 to |ss|
      invariant SortedSplices(sorted) && multiset(sorted) == multiset(ss[..i])
    {
      InsertSorts(sorted, ss[i]);
      assert ss[..i + 1] == ss[..i] + [ss[i]];
      sorted := Insert(sorted, ss[i]);
    }
    assert ss[..|ss|] == ss;
  }

  /** What the test on adjacent sorted splices decides about the splices as they came. */
  lemma AcceptSorted(splices: seq<Splice>, sorted: seq<Splice>, count: nat)
    requires SortedSplices(sorted) && multiset(sorted) == multiset(splices)
    requires forall k :: 0 <= k < |splices| ==> InRange(splices[k], count)
    ensures !AdjacentTouch(sorted) <==> AllClear(multiset(splices))
    ensures !AdjacentTouch(sorted) ==> Applicable(sorted, count)
  {
    forall k | 0 <= k < |sorted|
      ensures InRange(sorted[k], count)
    {
      assert sorted[k] in multiset(splices);
      var j := InMultiset(splices, sorted[k]);
    }
    OverlapCheckComplete(sorted);
    if !AdjacentTouch(sorted) {
      forall i: nat, j: nat | i < j < |sorted|
        ensures sorted[i].end <= sorted[j].start && sorted[i].start < sorted[j].start
      {
        StartsAscend(sorted, i, j);
      }
    }
  }

  lemma {:induction false} ResolveAllInRange(hash: string -> string, lines: seq<string>, hunks: seq<Hunk>)
    requires ResolveAll(hash, lines, hunks).Ok?
    ensures forall s :: s in ResolveAll(hash, lines, hunks).value.0 ==> InRange(s, |lines|)
  {
    hide ResolveHunk, InRange;
    if hunks != [] {
      ResolveAllInRange(hash, lines, hunks[..|hunks| - 1]);
      ResolvedInRange(hash, lines, hunks[|hunks| - 1]);
    }
  }

  /** `parse_hunks`. On success the splices are the resolved hunks, sorted, in range and pairwise clear;
      it fails exactly when a hunk does not resolve or two resolved hunks touch. */
  method ParseHunks(hash: string -> string, lines: seq<string>, hunks: seq<Hunk>)
    returns (r: Result<(seq<Splice>, nat), PatchError>)
    ensures match ResolveAll(hash, lines, hunks)
      case Err(e) => r == Err(e)
      case Ok((splices, moved)) =>
        if AllClear(multiset(splices))
        then r.Ok? && r.value.1 == moved && multiset(r.value.0) == multiset(splices) && Applicable(r.value.0, |lines|)
        else r == Err(InvalidInput(Overlap))
  {
    hide ResolveHunk, AllClear, Applicable, SortedSplices, InRange;
    var splices: seq<Splice> := [];
    var recovered := 0;
    for i := 0 to |hunks|
      invariant ResolveAll(hash, lines, hunks[..i]) == Ok((splices, recovered))
    {
      assert hunks[..i + 1][..i] == hunks[..i];
      var resolved := ResolveHunk(hash, lines, hunks[i]);
      if resolved.Err? {
        FailsEarly(hash, lines, hunks, i + 1);
        return Err(resolved.error);
      }
      splices := splices + [resolved.value.splice];
      recovered := recovered + resolved.value.moved;
    }
    assert hunks[..|hunks|] == hunks;
    ResolveAllInRange(hash, lines, hunks);
    var sorted := Sort(splices);
    AcceptSorted(splices, sorted, |lines|);
    var k := 0;
    while k < |sorted| - 1
      invariant 0 <= k && (k == 0 || k < |sorted|)
      invariant forall j :: 0 <= j < k ==> !Touch(sorted[j], sorted[j + 1])
    {
      if Touch(sorted[k], sorted[k + 1]) {
        return Err(InvalidInput(Overlap));
      }
      k := k + 1;
    }
    r := Ok((sorted, recovered));
  }

  lemma {:induction false} FailsEarly(hash: string -> string, lines: seq<string>, hunks: seq<Hunk>, n: nat)
    requires n <= |hunks| && ResolveAll(hash, lines, hunks[..n]).Err?
    ensures ResolveAll(hash, lines, hunks) == ResolveAll(hash, lines, hunks[..n])
    decreases |hunks|
  {
    if n == |hunks| {
      assert hunks[..n] == hunks;
    } else {
      assert hunks[..|hunks| - 1][..n] == hunks[..n];
      FailsEarly(hash, lines, hunks[..|hunks| - 1], n);
    }
  }

  /** Accepted splices: in range, strictly ascending, disjoint. */
  ghost predicate Applicable(ss: seq<Splice>, count: nat) {
    && (forall k :: 0 <= k < |ss| ==> InRange(ss[k], count))
    && (forall i, j :: 0 <= i < j < |ss| ==> ss[i].end <= ss[j].start && ss[i].start < ss[j].start)
  }

  // ---------------------------------------------------------------- the order of hunks is irrelevant

  lemma {:induction false} ResolveAllMeaning(hash: string -> string, lines: seq<string>, hunks: seq<Hunk>)
    ensures ResolveAll(hash, lines, hunks).Ok? <==>
              forall i :: 0 <= i < |hunks| ==> ResolveHunk(hash, lines, hunks[i]).Ok?
    ensures ResolveAll(hash, lines, hunks).Ok? ==> |ResolveAll(hash, lines, hunks).value.0| == |hunks|
  {
    if hunks != [] {
      var init := hunks[..|hunks| - 1];
      ResolveAllMeaning(hash, lines, init);
      assert forall i :: 0 <= i < |init| ==> init[i] == hunks[i];
    }
  }

  lemma ResolveAllSnoc(hash: string -> string, lines: seq<string>, hunks: seq<Hunk>, last: Hunk)
    ensures var r, one := ResolveAll(hash, lines, hunks), ResolveHunk(hash, lines, last);
      && (ResolveAll(hash, lines, hunks + [last]).Ok? <==> r.Ok? && one.Ok?)
      && (r.Ok? && one.Ok? ==>
            ResolveAll(hash, lines, hunks + [last]) == Ok((r.value.0 + [one.value.splice], r.value.1 + one.value.moved)))
  {
    hide ResolveHunk;
    assert (hunks + [last])[..|hunks|] == hunks;
  }

  /** Where a hunk stands in the list does not matter for the splices found and the moves counted. */
  lemma {:induction false} ResolveAllInsert(hash: string -> string, lines: seq<string>, a: seq<Hunk>, x: Hunk, b: seq<Hunk>)
    requires ResolveAll(hash, lines, a + [x] + b).Ok?
    ensures ResolveHunk(hash, lines, x).Ok? && ResolveAll(hash, lines, a + b).Ok?
    ensures var all, rest, one := ResolveAll(hash, lines, a + [x] + b).value, ResolveAll(hash, lines, a + b).value,
                                  ResolveHunk(hash, lines, x).value;
      multiset(all.0) == multiset(rest.0) + multiset{one.splice} && all.1 == rest.1 + one.moved
  {
    hide ResolveHunk, ResolveAll;
    if b == [] {
      assert a + [x] + b == a + [x] && a + b == a;
      ResolveAllSnoc(hash, lines, a, x);
    } else {
      var init, last := b[..|b| - 1], b[|b| - 1];
      assert a + [x] + b == (a + [x] + init) + [last] && a + b == (a + init) + [last];
      ResolveAllSnoc(hash, lines, a + [x] + init, last);
      ResolveAllInsert(hash, lines, a, x, init);
      ResolveAllSnoc(hash, lines, a + init, last);
    }
  }

  lemma FirstIsLeast(ss: seq<Splice>, tt: seq<Splice>, count: nat)
    requires Applicable(ss, count) && Applicable(tt, count) && multiset(ss) == multiset(tt) && ss != [] && tt != []
    ensures ss[0] == tt[0]
  {
    assert ss[0] in multiset(tt) && tt[0] in multiset(ss);
    var i := InMultiset(tt, ss[0]);
    var j := InMultiset(ss, tt[0]);
    assert i > 0 ==> tt[0].start < ss[0].start;
    assert j > 0 ==> ss[0].start < tt[0].start;
  }

  lemma ApplicableTail(ss: seq<Splice>, count: nat)
    requires Applicable(ss, count) && ss != []
    ensures Applicable(ss[1..], count)
  {
    var tail := ss[1..];
    assert forall i :: 0 <= i < |tail| ==> tail[i] == ss[i + 1];
  }

  /** Two accepted, sorted splice lists with the same members are the same list. */
  lemma {:induction false} SortedUnique(ss: seq<Splice>, tt: seq<Splice>, count: nat)
    requires Applicable(ss, count) && Applicable(tt, count) && multiset(ss) == multiset(tt)
    ensures ss == tt
  {
    hide Applicable;
    assert |multiset(ss)| == |multiset(tt)|;
    if ss != [] {
      FirstIsLeast(ss, tt, count);
      ApplicableTail(ss, count);
      ApplicableTail(tt, count);
      assert ss == [ss[0]] + ss[1..] && tt == [tt[0]] + tt[1..];
      assert multiset(ss[1..]) == multiset(ss) - multiset{ss[0]};
      assert multiset(tt[1..]) == multiset(tt) - multiset{tt[0]};
      SortedUnique(ss[1..], tt[1..], count);
    }
  }

  lemma Without(hunks: seq<Hunk>, k: nat)
    requires k < |hunks|
    ensures hunks == hunks[..k] + [hunks[k]] + hunks[k + 1..]
    ensures multiset(hunks[..k] + hunks[k + 1..]) == multiset(hunks) - multiset{hunks[k]}
  {
    assert hunks == hunks[..k] + [hunks[k]] + hunks[k + 1..];
    assert multiset(hunks) == multiset(hunks[..k]) + multiset{hunks[k]} + multiset(hunks[k + 1..]);
  }

  lemma PermutedResolves(hash: string -> string, lines: seq<string>, hunks: seq<Hunk>, other: seq<Hunk>)
    requires multiset(hunks) == multiset(other) && ResolveAll(hash, lines, hunks).Ok?
    ensures ResolveAll(hash, lines, other).Ok?
  {
    hide ResolveAll, ResolveHunk;
    ResolveAllMeaning(hash, lines, hunks);
    forall i | 0 <= i < |other|
      ensures ResolveHunk(hash, lines, other[i]).Ok?
    {
      assert other[i] in multiset(hunks);
      assert other[i] in hunks;
    }
    ResolveAllMeaning(hash, lines, other);
  }

  /** Both lists resolve, to the same splices and the same number of moved anchors. */
  ghost predicate Agree(hash: string -> string, lines: seq<string>, hunks: seq<Hunk>, other: seq<Hunk>) {
    var r, q := ResolveAll(hash, lines, hunks), ResolveAll(hash, lines, other);
    r.Ok? && q.Ok? && multiset(r.value.0) == multiset(q.value.0) && r.value.1 == q.value.1
  }

  lemma AgreeInsert(hash: string -> string, lines: seq<string>, a: seq<Hunk>, b: seq<Hunk>, c: seq<Hunk>, d: seq<Hunk>, x: Hunk)
    requires Agree(hash, lines, a + b, c + d)
    requires ResolveAll(hash, lines, a + [x] + b).Ok? && ResolveAll(hash, lines, c + [x] + d).Ok?
    ensures Agree(hash, lines, a + [x] + b, c + [x] + d)
  {
    hide ResolveAll, ResolveHunk;
    ResolveAllInsert(hash, lines, a, x, b);
    ResolveAllInsert(hash, lines, c, x, d);
  }

  lemma {:induction false} PermutedHunks(hash: string -> string, lines: seq<string>, hunks: seq<Hunk>, other: seq<Hunk>)
    requires multiset(hunks) == multiset(other) && ResolveAll(hash, lines, hunks).Ok?
    ensures Agree(hash, lines, hunks, other)
  {
    PermutedResolves(hash, lines, hunks, other);
    assert |multiset(hunks)| == |multiset(other)|;
    if hunks != [] {
      hide ResolveAll, ResolveHunk, Agree;
      var n := |hunks| - 1;
      assert hunks[n] in multiset(other);
      var k :| 0 <= k < |other| && other[k] == hunks[n];
      Without(other, k);
      Without(hunks, n);
      ResolveAllInsert(hash, lines, hunks[..n], hunks[n], hunks[n + 1..]);
      PermutedHunks(hash, lines, hunks[..n] + hunks[n + 1..], other[..k] + other[k + 1..]);
      AgreeInsert(hash, lines, hunks[..n], hunks[n + 1..], other[..k], other[k + 1..], hunks[n]);
    }
  }
}
