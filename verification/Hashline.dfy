/** Content anchors (crates/tools/src/fs.rs): a `line#hash` token names a line by position and content.

    `hash` stands for the first two bytes of SHA-256 in hex; nothing else about it is used. */
module Hashlines {
  import opened Wrappers
  import opened Ids

  /** Why a patch is refused. `Stale` carries the fresh context the caller may re-anchor from. */
  datatype PatchError = InvalidInput(what: Complaint) | Stale(gone: bool, context: string)

  datatype Complaint =
    | BadAnchor | MissingAnchor | EmptyPatch
    | InsertTakesNoTo | InsertNeedsContent
    | ZeroOnlyForInsert | ReplaceNeedsContent | DeleteTakesNoContent
    | ToMustBeRealLine | ToAboveAnchor | UnknownOp | Overlap

  const MAX_USIZE: nat := 0xFFFF_FFFF_FFFF_FFFF

  predicate IsDigit(c: char) { '0' <= c <= '9' }

  predicate IsLowerHex(c: char) { IsDigit(c) || 'a' <= c <= 'f' }

  predicate IsHex(c: char) { IsLowerHex(c) || 'A' <= c <= 'F' }

  function ToLower(c: char): char {
    if 'A' <= c <= 'Z' then c - 'A' + 'a' else c
  }

  function Lowered(s: string): (r: string)
    ensures |r| == |s| && forall i :: 0 <= i < |s| ==> r[i] == ToLower(s[i])
  {
    seq(|s|, i requires 0 <= i < |s| => ToLower(s[i]))
  }

  ghost predicate HexHash(hash: string -> string) {
    forall line :: |hash(line)| == 4 && forall i :: 0 <= i < 4 ==> IsLowerHex(hash(line)[i])
  }

  /** The token `read_file` prints before a line. */
  function Anchor(hash: string -> string, i: nat, line: string): string {
    Decimal(i + 1) + "#" + hash(line)
  }

  function Row(hash: string -> string, i: nat, line: string): string {
    Anchor(hash, i, line) + "\t" + line + "\n"
  }

  /** `hashlines`: at most `limit` rows from the 1-indexed line `first` on. */
  function Rendered(hash: string -> string, lines: seq<string>, first: nat, limit: nat): string
    requires first >= 1
    decreases limit
  {
    if limit == 0 || first > |lines| then ""
    else Row(hash, first - 1, lines[first - 1]) + Rendered(hash, lines, first + 1, limit - 1)
  }

  function IndexOf(s: string, c: char): (r: Option<nat>)
    ensures r.Some? ==> r.value < |s|
  {
    if s == "" then None
    else if s[0] == c then Some(0)
    else match IndexOf(s[1..], c) case None => None case Some(i) => Some(i + 1)
  }

  lemma {:induction false} IndexOfMeaning(s: string, c: char)
    ensures match IndexOf(s, c)
      case None => forall i :: 0 <= i < |s| ==> s[i] != c
      case Some(k) => k < |s| && s[k] == c && forall i :: 0 <= i < k ==> s[i] != c
  {
    if s != "" && s[0] != c {
      IndexOfMeaning(s[1..], c);
    }
  }

  lemma IndexOfAt(s: string, c: char, k: nat)
    requires k < |s| && s[k] == c && forall i :: 0 <= i < k ==> s[i] != c
    ensures IndexOf(s, c) == Some(k)
  {
    IndexOfMeaning(s, c);
  }

  function Digits(s: string): Option<nat> {
    if s == "" then Some(0)
    else if !IsDigit(s[|s| - 1]) then None
    else match Digits(s[..|s| - 1])
      case None => None
      case Some(n) => Some(10 * n + (s[|s| - 1] - '0') as nat)
  }

  /** Rust's `str::parse::<usize>`: an optional plus sign, at least one digit, no overflow. */
  function ParseUsize(s: string): Option<nat> {
    var digits := if s != "" && s[0] == '+' then s[1..] else s;
    if digits == "" then None
    else match Digits(digits)
      case None => None
      case Some(n) => if n <= MAX_USIZE then Some(n) else None
  }

  /** `parse_anchor`: line 0 is the virtual top of the file. */
  function ParseAnchor(raw: string): Result<(nat, string), PatchError> {
    if raw == "0" then Ok((0, ""))
    else match IndexOf(raw, '#')
      case None => Err(InvalidInput(BadAnchor))
      case Some(k) =>
        var token := raw[k + 1..];
        match ParseUsize(raw[..k])
        case None => Err(InvalidInput(BadAnchor))
        case Some(line) =>
          if line == 0 || |token| != 4 || exists i :: 0 <= i < |token| && !IsHex(token[i])
          then Err(InvalidInput(BadAnchor))
          else Ok((line, Lowered(token)))
  }

  /** The 0-based indices of the lines with this hash. */
  function Matches(hash: string -> string, lines: seq<string>, token: string): seq<nat> {
    if lines == [] then []
    else Matches(hash, lines[..|lines| - 1], token)
         + (if hash(lines[|lines| - 1]) == token then [|lines| - 1] else [])
  }

  function Clamp(n: nat, lo: nat, hi: nat): nat {
    if n < lo then lo else if n > hi then hi else n
  }

  function Max(a: nat, b: nat): nat {
    if a > b then a else b
  }

  function ContextStart(line: nat, count: nat): nat {
    var center := Clamp(line, 1, Max(count, 1));
    Max(if center < 3 then 0 else center - 3, 1)
  }

  /** `resolve_anchor`: where the anchor points now, and whether it moved. */
  function Resolve(hash: string -> string, lines: seq<string>, line: nat, token: string): Result<(nat, bool), PatchError> {
    if 1 <= line <= |lines| && hash(lines[line - 1]) == token then Ok((line - 1, false))
    else
      var matches := Matches(hash, lines, token);
      if |matches| == 1 then Ok((matches[0], true))
      else Err(Stale(matches == [], Rendered(hash, lines, ContextStart(line, |lines|), 7)))
  }

  // ---------------------------------------------------------------- anchors round-trip

  lemma DigitsSnoc(s: string, d: nat)
    requires d < 10 && Digits(s).Some?
    ensures IsDigit(DIGITS[d]) && Digits(s + [DIGITS[d]]) == Some(10 * Digits(s).value + d)
  {
    assert (s + [DIGITS[d]])[..|s|] == s;
    assert DIGITS[d] == '0' + d as char;
  }

  lemma OneDigit(n: nat)
    requires n < 10
    ensures Decimal(n) == [DIGITS[n]] && IsDigit(DIGITS[n]) && Digits(Decimal(n)) == Some(n)
  {
    DigitsSnoc("", n);
    hide Digits, IsDigit;
    assert "" + [DIGITS[n]] == [DIGITS[n]];
  }

  lemma {:induction false} DecimalDigits(n: nat)
    ensures forall i :: 0 <= i < |Decimal(n)| ==> IsDigit(Decimal(n)[i])
    ensures Digits(Decimal(n)) == Some(n)
  {
    hide Digits, IsDigit;
    if n < 10 {
      OneDigit(n);
    } else {
      var q, d := n / 10, n % 10;
      assert Decimal(n) == Decimal(q) + [DIGITS[d]];
      DecimalDigits(q);
      DigitsSnoc(Decimal(q), d);
      hide Decimal;
      assert n == 10 * q + d;
      forall i | 0 <= i < |Decimal(n)|
        ensures IsDigit(Decimal(n)[i])
      {
        assert Decimal(n)[i] == if i < |Decimal(q)| then Decimal(q)[i] else DIGITS[d];
      }
    }
  }

  lemma NumberParses(n: nat)
    requires n <= MAX_USIZE
    ensures ParseUsize(Decimal(n)) == Some(n)
    ensures forall k :: 0 <= k < |Decimal(n)| ==> Decimal(n)[k] != '#'
  {
    DecimalDigits(n);
    hide Digits, Decimal;
    assert IsDigit(Decimal(n)[0]);
  }

  lemma TokenParses(hash: string -> string, line: string)
    requires HexHash(hash)
    ensures Lowered(hash(line)) == hash(line) && forall k :: 0 <= k < |hash(line)| ==> IsHex(hash(line)[k])
  {
  }

  /** Parsing a printed anchor gives back its line number and its hash. */
  lemma AnchorParses(hash: string -> string, i: nat, line: string)
    requires HexHash(hash) && i < MAX_USIZE
    ensures ParseAnchor(Anchor(hash, i, line)) == Ok((i + 1, hash(line)))
  {
    var raw, number, token := Anchor(hash, i, line), Decimal(i + 1), hash(line);
    NumberParses(i + 1);
    TokenParses(hash, line);
    assert |token| == 4;
    hide Decimal, ParseUsize, Lowered, IsHex, HexHash, IndexOf;
    assert raw == number + ("#" + token);
    IndexOfAt(raw, '#', |number|);
    assert raw[..|number|] == number && raw[|number| + 1..] == token;
    assert |raw| > 1;
  }

  const UPPER_HEX := "0123456789ABCDEF"
  const LOWER_HEX := "0123456789abcdef"

  /** The digits a token may be written in, and what each is read as. */
  lemma HexDigits(c: char)
    ensures IsHex(c) <==> c in UPPER_HEX || c in LOWER_HEX
    ensures forall i :: 0 <= i < 16 ==> ToLower(UPPER_HEX[i]) == LOWER_HEX[i] && ToLower(LOWER_HEX[i]) == LOWER_HEX[i]
  {
    if IsHex(c) {
      if IsDigit(c) {
        assert LOWER_HEX[(c - '0') as nat] == c;
      } else if IsLowerHex(c) {
        assert LOWER_HEX[10 + (c - 'a') as nat] == c;
      } else {
        assert UPPER_HEX[10 + (c - 'A') as nat] == c;
      }
    }
  }

  /** `written` is the number `n` in decimal, perhaps with zeros in front. */
  predicate IsNumber(written: string, n: nat) {
    written != "" && Digits(written) == Some(n)
  }

  /** Which texts are line numbers: decimal, perhaps after a plus sign, and no larger than a machine word. */
  lemma NumbersExactly(s: string, n: nat)
    ensures ParseUsize(s) == Some(n)
      <==> n <= 0xFFFF_FFFF_FFFF_FFFF && (IsNumber(s, n) || (s != "" && s[0] == '+' && IsNumber(s[1..], n)))
  {
    if s != "" && s[0] == '+' {
      NotADigit(s);
    }
  }

  lemma {:induction false} NotADigit(s: string)
    requires s != "" && !IsDigit(s[0])
    ensures Digits(s) == None
  {
    if |s| > 1 {
      NotADigit(s[..|s| - 1]);
    }
  }

  /** A token as it may be written: four hex digits of either case. */
  predicate IsToken(written: string) {
    |written| == 4 && forall i :: 0 <= i < 4 ==> IsHex(written[i])
  }

  /** The first hash sign is at `k`. */
  predicate SplitsAt(raw: string, k: nat) {
    k < |raw| && raw[k] == '#' && '#' !in raw[..k]
  }

  /** Which texts are anchors, and of what: "0" of the top of the file, and a line number from 1 on, a hash
      sign and a token, of that line and the token in lower case. Anything else is complained of. */
  lemma AnchorsExactly(raw: string)
    ensures ParseAnchor("0") == Ok((0, ""))
    ensures raw != "0" ==>
      match ParseAnchor(raw)
      case Ok((line, token)) =>
        exists k: nat :: SplitsAt(raw, k) && ParseUsize(raw[..k]) == Some(line) && line >= 1
                         && IsToken(raw[k + 1..]) && token == Lowered(raw[k + 1..])
      case Err(e) =>
        && e == InvalidInput(BadAnchor)
        && forall k: nat :: SplitsAt(raw, k) ==>
             !(ParseUsize(raw[..k]).Some? && ParseUsize(raw[..k]).value >= 1 && IsToken(raw[k + 1..]))
  {
    hide ParseUsize, IsHex, ToLower, Digits, Lowered;
    IndexOfMeaning(raw, '#');
    if raw != "0" {
      if ParseAnchor(raw).Ok? {
        var k := IndexOf(raw, '#').value;
        assert SplitsAt(raw, k);
      } else {
        forall k: nat | SplitsAt(raw, k)
          ensures !(ParseUsize(raw[..k]).Some? && ParseUsize(raw[..k]).value >= 1 && IsToken(raw[k + 1..]))
        {
          assert forall i :: 0 <= i < k ==> raw[..k][i] == raw[i];
          IndexOfAt(raw, '#', k);
        }
      }
    }
  }

  predicate StandsAt(text: string, row: string, i: nat) {
    i + |row| <= |text| && text[i..i + |row|] == row
  }

  /** The text has a row for line `i`: its number, its hash and its text. */
  ghost predicate ShowsLine(text: string, hash: string -> string, lines: seq<string>, i: nat)
    requires 1 <= i <= |lines|
  {
    var row := Decimal(i) + "#" + hash(lines[i - 1]) + "\t" + lines[i - 1] + "\n";
    exists at: nat :: StandsAt(text, row, at)
  }

  lemma StandsBehind(head: string, text: string, row: string, i: nat)
    requires StandsAt(text, row, i)
    ensures StandsAt(head + text, row, |head| + i)
  {
    assert (head + text)[|head| + i..|head| + i + |row|] == text[i..i + |row|];
  }

  lemma RowStands(row: string, rest: string)
    ensures StandsAt(row + rest, row, 0)
  {
  }

  lemma {:induction false} RowsShown(hash: string -> string, lines: seq<string>, first: nat, limit: nat, i: nat)
    requires 1 <= first <= i < first + limit && i <= |lines|
    ensures ShowsLine(Rendered(hash, lines, first, limit), hash, lines, i)
    decreases limit
  {
    hide StandsAt, Decimal;
    var row := Row(hash, i - 1, lines[i - 1]);
    assert row == Decimal(i) + "#" + hash(lines[i - 1]) + "\t" + lines[i - 1] + "\n";
    var head, rest := Row(hash, first - 1, lines[first - 1]), Rendered(hash, lines, first + 1, limit - 1);
    if first == i {
      RowStands(row, rest);
    } else {
      RowsShown(hash, lines, first + 1, limit - 1, i);
      var at: nat :| StandsAt(rest, row, at);
      StandsBehind(head, rest, row, at);
    }
  }

  /** A stale anchor is answered with fresh context: the numbered line, or the last one when there is no such
      line any more, and the three before it and the three behind it, as far as there are such lines. */
  lemma StaleShowsContext(hash: string -> string, lines: seq<string>, line: nat, token: string, i: nat)
    requires Resolve(hash, lines, line, token).Err? && 1 <= i <= |lines|
    requires var center := if line > |lines| then |lines| else if line < 1 then 1 else line;
      center - 3 <= i <= center + 3
    ensures ShowsLine(Resolve(hash, lines, line, token).error.context, hash, lines, i)
  {
    hide ShowsLine;
    RowsShown(hash, lines, ContextStart(line, |lines|), 7, i);
  }

  /** The anchor of a printed row is what stands before its first tab. */
  lemma RowStartsWithAnchor(hash: string -> string, i: nat, line: string)
    requires HexHash(hash)
    ensures var row := Row(hash, i, line);
      IndexOf(row, '\t') == Some(|Anchor(hash, i, line)|) && row[..|Anchor(hash, i, line)|] == Anchor(hash, i, line)
  {
    var row, anchor := Row(hash, i, line), Anchor(hash, i, line);
    DecimalDigits(i + 1);
    assert row == anchor + ("\t" + line + "\n");
    forall k | 0 <= k < |anchor|
      ensures row[k] != '\t'
    {
      if k > |Decimal(i + 1)| {
        assert anchor[k] == hash(line)[k - |Decimal(i + 1)| - 1];
      }
    }
    IndexOfAt(row, '\t', |anchor|);
  }

  /** Printing a line's anchor, parsing it and resolving it against the unchanged file names that very
      line, duplicates included. */
  lemma AnchorRoundTrip(hash: string -> string, lines: seq<string>, i: nat)
    requires HexHash(hash) && i < |lines| <= MAX_USIZE
    ensures var parsed := ParseAnchor(Anchor(hash, i, lines[i]));
      parsed.Ok? && Resolve(hash, lines, parsed.value.0, parsed.value.1) == Ok((i, false))
  {
    AnchorParses(hash, i, lines[i]);
  }

  // ---------------------------------------------------------------- anchors against a changed file

  lemma {:induction false} MatchesMeaning(hash: string -> string, lines: seq<string>, token: string)
    ensures forall k: nat :: k in Matches(hash, lines, token) <==> k < |lines| && hash(lines[k]) == token
    ensures forall a, b :: 0 <= a < b < |Matches(hash, lines, token)| ==>
              Matches(hash, lines, token)[a] < Matches(hash, lines, token)[b]
  {
    if lines != [] {
      var init := lines[..|lines| - 1];
      MatchesMeaning(hash, init, token);
      var m, before := Matches(hash, lines, token), Matches(hash, init, token);
      forall k: nat
        ensures k in m <==> k < |lines| && hash(lines[k]) == token
      {
        if k < |init| {
          assert init[k] == lines[k];
        }
      }
      assert forall a :: 0 <= a < |before| ==> before[a] in before;
    }
  }

  /** `k` is the one line with this hash. */
  ghost predicate OnlyMatch(hash: string -> string, lines: seq<string>, token: string, k: nat) {
    k < |lines| && hash(lines[k]) == token && forall j :: 0 <= j < |lines| && hash(lines[j]) == token ==> j == k
  }

  /** What resolution answers: the line in place if its hash still fits, else the only line with the
      hash, else an error that says whether none or several lines have it. */
  lemma ResolveMeaning(hash: string -> string, lines: seq<string>, line: nat, token: string)
    ensures var inPlace := 1 <= line <= |lines| && hash(lines[line - 1]) == token;
      match Resolve(hash, lines, line, token)
      case Ok((k, moved)) =>
        && k < |lines| && hash(lines[k]) == token
        && (moved <==> !inPlace) && (moved ==> OnlyMatch(hash, lines, token, k)) && (!moved ==> k == line - 1)
      case Err(e) =>
        && !inPlace && (forall k: nat :: !OnlyMatch(hash, lines, token, k))
        && e.Stale? && (e.gone <==> forall k :: 0 <= k < |lines| ==> hash(lines[k]) != token)
  {
    MatchesMeaning(hash, lines, token);
    var m := Matches(hash, lines, token);
    if |m| == 1 {
      assert m[0] in m;
      forall j | 0 <= j < |lines| && hash(lines[j]) == token
        ensures j == m[0]
      {
        assert j in m;
      }
    } else if |m| >= 2 {
      assert m[0] in m && m[1] in m && m[0] < m[1];
    } else {
      forall k | 0 <= k < |lines|
        ensures hash(lines[k]) != token
      {
        assert k !in m;
      }
    }
  }

  /** An anchor taken from one version of a file and resolved in another is applied to the anchored
      content, provided no two different lines of the two versions share a hash. */
  lemma AnchorsNeverMisapply(hash: string -> string, before: seq<string>, i: nat, after: seq<string>)
    requires i < |before|
    requires forall k :: 0 <= k < |after| && hash(after[k]) == hash(before[i]) ==> after[k] == before[i]
    ensures var r := Resolve(hash, after, i + 1, hash(before[i]));
      r.Ok? ==> r.value.0 < |after| && after[r.value.0] == before[i]
  {
    ResolveMeaning(hash, after, i + 1, hash(before[i]));
  }

  /** Exactly when an anchor from one version of a file is applied to other content in another version:
      a different line with the anchored hash stands in the anchored place, or, when nothing in that place
      has the hash, is the only line that has it. */
  lemma MisappliedExactly(hash: string -> string, before: seq<string>, i: nat, after: seq<string>)
    requires i < |before|
    ensures var r := Resolve(hash, after, i + 1, hash(before[i]));
      r.Ok? ==> r.value.0 < |after|
    ensures var h := hash(before[i]);
      var r, inPlace := Resolve(hash, after, i + 1, h), i < |after| && hash(after[i]) == h;
      (r.Ok? && after[r.value.0] != before[i]) <==>
        || (inPlace && after[i] != before[i])
        || (!inPlace && exists k: nat :: OnlyMatch(hash, after, h, k) && after[k] != before[i])
  {
    ResolveMeaning(hash, after, i + 1, hash(before[i]));
  }

  /** The first way: the anchored line was replaced by another with the same hash, and the stale anchor is
      accepted in place. */
  lemma CollisionIsAccepted(hash: string -> string, before: string, after: string)
    requires before != after && hash(before) == hash(after)
    ensures Resolve(hash, [after], 1, hash(before)) == Ok((0, false)) && [after][0] != before
  {}

  /** The second way: the anchored line was edited away, and the anchor is followed to the one other line
      that has its hash. */
  lemma CollisionIsFollowed(hash: string -> string, before: string, edited: string, other: string)
    requires before != other && hash(before) == hash(other) && hash(edited) != hash(before)
    ensures Resolve(hash, [edited, other], 1, hash(before)) == Ok((1, true)) && [edited, other][1] != before
  {
    var after := [edited, other];
    ResolveMeaning(hash, after, 1, hash(before));
    assert after[0] == edited && after[1] == other;
    assert OnlyMatch(hash, after, hash(before), 1);
  }

  // ---------------------------------------------------------------- such lines always exist

  function HexValue(c: char): nat
    requires IsLowerHex(c)
    ensures HexValue(c) < 16
  {
    if IsDigit(c) then (c - '0') as nat else 10 + (c - 'a') as nat
  }

  function Code(token: string): (n: nat)
    requires |token| == 4 && forall i :: 0 <= i < 4 ==> IsLowerHex(token[i])
    ensures n < 0x1_0000
  {
    0x1000 * HexValue(token[0]) + 0x100 * HexValue(token[1]) + 0x10 * HexValue(token[2]) + HexValue(token[3])
  }

  /** The code of the hash of the line that spells `n`. */
  function CodeAt(hash: string -> string, n: nat): nat {
    var token := hash(Decimal(n));
    if |token| == 4 && forall i :: 0 <= i < 4 ==> IsLowerHex(token[i]) then Code(token) else 0
  }

  lemma CodeInjective(a: string, b: string)
    requires |a| == |b| == 4 && forall i :: 0 <= i < 4 ==> IsLowerHex(a[i]) && IsLowerHex(b[i])
    requires Code(a) == Code(b)
    ensures a == b
  {
    forall i | 0 <= i < 4
      ensures a[i] == b[i]
    {
      assert HexValue(a[0]) == HexValue(b[0]) && HexValue(a[1]) == HexValue(b[1]);
      assert HexValue(a[2]) == HexValue(b[2]) && HexValue(a[3]) == HexValue(b[3]);
    }
  }

  lemma {:induction false} BoundedSet(s: set<nat>, m: nat)
    requires forall x :: x in s ==> x < m
    ensures |s| <= m
  {
    if m > 0 {
      BoundedSet(s - {m - 1}, m - 1);
    } else {
      assert s == {};
    }
  }

  lemma Pigeonhole(f: nat -> nat, m: nat) returns (i: nat, j: nat)
    requires forall k :: 0 <= k <= m ==> f(k) < m
    ensures i < j <= m && f(i) == f(j)
  {
    var seen: set<nat> := {};
    i, j := 0, 0;
    while j <= m && f(j) !in seen
      invariant j <= m + 1 && |seen| == j
      invariant forall x :: x in seen ==> x < m && exists k :: 0 <= k < j && f(k) == x
      decreases m + 1 - j
    {
      seen := seen + {f(j)};
      j := j + 1;
    }
    BoundedSet(seen, m);
    i :| 0 <= i < j && f(i) == f(j);
  }

  /** Four hex digits cannot tell all lines apart. Whatever the hash, two different lines share one: an
      anchor of the first is accepted in place of the second, and an anchor that says the first was line 2
      is followed to the second as line 1. */
  lemma SomeAnchorsMisapply(hash: string -> string) returns (a: string, b: string)
    requires HexHash(hash)
    ensures a != b && hash(a) == hash(b) && '\n' !in a && '\n' !in b
    ensures Resolve(hash, [b], 1, hash(a)) == Ok((0, false))
    ensures Resolve(hash, [b], 2, hash(a)) == Ok((0, true))
  {
    var i, j := Pigeonhole((n: nat) => CodeAt(hash, n), 0x1_0000);
    a, b := Decimal(i), Decimal(j);
    CodeInjective(hash(a), hash(b));
    if a == b {
      DecimalInjective(i, j);
    }
    DecimalDigits(i);
    DecimalDigits(j);
    ResolveMeaning(hash, [b], 2, hash(a));
    assert OnlyMatch(hash, [b], hash(a), 0);
  }
}
