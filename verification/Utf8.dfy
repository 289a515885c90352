/** Bounded text on character boundaries: `truncate_middle` (crates/tools/src/lib.rs) and `cap_result`
    (crates/agent/src/lib.rs). A Rust `String` is a byte sequence in UTF-8, as section 4 of RFC 3629
    defines it. */
module Utf8 {
  import opened Wrappers
  import opened Ids
  import opened Hashlines

  type Byte = b: int | 0 <= b < 0x100

  /** A continuation byte (UTF8-tail). */
  predicate Tail(b: Byte) { 0x80 <= b <= 0xBF }

  /** The length of the well-formed character a sequence starts with; 0 when there is none. */
  function CharLen(s: seq<Byte>): (n: nat)
    ensures n <= 4 && n <= |s|
    ensures n > 0 ==> !Tail(s[0]) && forall k :: 1 <= k < n ==> Tail(s[k])
  {
    if s == [] then 0
    else if s[0] <= 0x7F then 1
    else if |s| >= 2 && 0xC2 <= s[0] <= 0xDF && Tail(s[1]) then 2
    else if |s| >= 3 && Second3(s[0], s[1]) && Tail(s[2]) then 3
    else if |s| >= 4 && Second4(s[0], s[1]) && Tail(s[2]) && Tail(s[3]) then 4
    else 0
  }

  /** The first two bytes of a three-byte character: no overlong forms, no surrogates. */
  predicate Second3(a: Byte, b: Byte) {
    || (a == 0xE0 && 0xA0 <= b <= 0xBF)
    || (0xE1 <= a <= 0xEC && Tail(b))
    || (a == 0xED && 0x80 <= b <= 0x9F)
    || (0xEE <= a <= 0xEF && Tail(b))
  }

  /** The first two bytes of a four-byte character: no overlong forms, nothing above U+10FFFF. */
  predicate Second4(a: Byte, b: Byte) {
    || (a == 0xF0 && 0x90 <= b <= 0xBF)
    || (0xF1 <= a <= 0xF3 && Tail(b))
    || (a == 0xF4 && 0x80 <= b <= 0x8F)
  }

  /** A Unicode scalar value: a code point that is no surrogate. */
  predicate Scalar(n: nat) {
    n < 0xD800 || 0xE000 <= n <= 0x10FFFF
  }

  /** The bytes of a scalar value, as section 3 of RFC 3629 builds them. */
  function Encoded(n: nat): (s: seq<Byte>)
    requires Scalar(n)
  {
    if n < 0x80 then [n]
    else if n < 0x800 then [Lead(0xC0, n / 0x40), Low(n)]
    else if n < 0x1_0000 then [Lead(0xE0, n / 0x1000), Low(n / 0x40), Low(n)]
    else [Lead(0xF0, n / 0x4_0000), Low(n / 0x1000), Low(n / 0x40), Low(n)]
  }

  function Lead(mark: Byte, high: nat): Byte
    requires mark + high < 0x100
  {
    mark + high
  }

  /** A continuation byte carries the six low bits. */
  function Low(n: nat): Byte {
    0x80 + n % 0x40
  }

  /** Every scalar value is a well-formed character. */
  lemma EncodedIsCharacter(n: nat, rest: seq<Byte>)
    requires Scalar(n)
    ensures CharLen(Encoded(n) + rest) == |Encoded(n)|
  {
    if n < 0x80 {
      assert (Encoded(n) + rest)[0] == n;
    } else if n < 0x800 {
      assert (Encoded(n) + rest)[0] == Lead(0xC0, n / 0x40) && (Encoded(n) + rest)[1] == Low(n);
    } else if n < 0x1_0000 {
      ThreeBytes(n, rest);
    } else {
      FourBytes(n, rest);
    }
  }

  lemma ThreeBytes(n: nat, rest: seq<Byte>)
    requires Scalar(n) && 0x800 <= n < 0x1_0000
    ensures CharLen(Encoded(n) + rest) == 3 == |Encoded(n)|
  {
    var s := Encoded(n) + rest;
    assert s[0] == Lead(0xE0, n / 0x1000) && s[1] == Low(n / 0x40) && s[2] == Low(n);
  }

  lemma FourBytes(n: nat, rest: seq<Byte>)
    requires Scalar(n) && 0x1_0000 <= n
    ensures CharLen(Encoded(n) + rest) == 4 == |Encoded(n)|
  {
    var s := Encoded(n) + rest;
    assert s[0] == Lead(0xF0, n / 0x4_0000) && s[1] == Low(n / 0x1000);
    assert s[2] == Low(n / 0x40) && s[3] == Low(n);
  }

  /** And every well-formed character is one scalar value's. */
  lemma CharacterIsEncoded(s: seq<Byte>) returns (n: nat)
    requires CharLen(s) > 0
    ensures Scalar(n) && s[..CharLen(s)] == Encoded(n)
  {
    match CharLen(s)
    case 1 => n := s[0];
    case 2 => n := Two(s[0], s[1]);
    case 3 => n := Three(s[0], s[1], s[2]);
    case 4 => n := Four(s[0], s[1], s[2], s[3]);
  }

  lemma Two(a: Byte, b: Byte) returns (n: nat)
    requires 0xC2 <= a <= 0xDF && Tail(b)
    ensures Scalar(n) && Encoded(n) == [a, b]
  {
    var x: int, y: int := a, b;
    n := (x - 0xC0) * 0x40 + (y - 0x80);
  }

  lemma Three(a: Byte, b: Byte, c: Byte) returns (n: nat)
    requires Second3(a, b) && Tail(c)
    ensures Scalar(n) && Encoded(n) == [a, b, c]
  {
    var x: int, y: int, z: int := a, b, c;
    n := ((x - 0xE0) * 0x40 + (y - 0x80)) * 0x40 + (z - 0x80);
    SixBits((x - 0xE0) * 0x40 + (y - 0x80), z - 0x80);
    SixBits(x - 0xE0, y - 0x80);
    assert n / 0x1000 == n / 0x40 / 0x40;
  }

  lemma Four(a: Byte, b: Byte, c: Byte, d: Byte) returns (n: nat)
    requires Second4(a, b) && Tail(c) && Tail(d)
    ensures Scalar(n) && Encoded(n) == [a, b, c, d]
  {
    var x: int, y: int, z: int, w: int := a, b, c, d;
    var top, upper := x - 0xF0, (x - 0xF0) * 0x40 + (y - 0x80);
    n := (upper * 0x40 + (z - 0x80)) * 0x40 + (w - 0x80);
    SixBits(upper * 0x40 + (z - 0x80), w - 0x80);
    SixBits(upper, z - 0x80);
    SixBits(top, y - 0x80);
    assert n / 0x1000 == n / 0x40 / 0x40 == upper;
    assert n / 0x4_0000 == n / 0x1000 / 0x40 == top;
    assert upper * 0x1000 <= n < 0x11_0000;
  }

  lemma SixBits(high: nat, low: nat)
    requires low < 0x40
    ensures (high * 0x40 + low) / 0x40 == high && (high * 0x40 + low) % 0x40 == low
  {
  }

  /** Well-formed UTF-8. */
  predicate Utf8(s: seq<Byte>) {
    s == [] || (CharLen(s) > 0 && Utf8(s[CharLen(s)..]))
  }

  /** The characters of well-formed text. */
  function Chars(s: seq<Byte>): seq<seq<Byte>>
    requires Utf8(s)
  {
    if s == [] then [] else [s[..CharLen(s)]] + Chars(s[CharLen(s)..])
  }

  /** `str::is_char_boundary`. */
  predicate IsBoundary(s: seq<Byte>, i: nat) {
    i == 0 || i == |s| || (i < |s| && !Tail(s[i]))
  }

  lemma CharLenPrefix(s: seq<Byte>, n: nat)
    requires 0 < CharLen(s) <= n <= |s|
    ensures CharLen(s[..n]) == CharLen(s)
  {
  }

  /** Text may be cut at a boundary, and nowhere else. */
  lemma {:induction false} BoundarySplits(s: seq<Byte>, i: nat)
    requires Utf8(s) && i <= |s|
    ensures IsBoundary(s, i) <==> Utf8(s[..i]) && Utf8(s[i..])
  {
    hide Second3, Second4;
    if i == 0 {
      assert s[..0] == [] && s[0..] == s;
    } else if i == |s| {
      assert s[..i] == s && s[i..] == [];
    } else if Tail(s[i]) {
      assert s[i..][0] == s[i];
    } else {
      var n := CharLen(s);
      assert i >= n;
      BoundarySplits(s[n..], i - n);
      assert s[n..][..i - n] == s[..i][n..] && s[n..][i - n..] == s[i..];
      CharLenPrefix(s, i);
    }
  }

  lemma CharLenGrows(s: seq<Byte>, i: nat)
    requires i <= |s| && CharLen(s[..i]) > 0
    ensures CharLen(s) == CharLen(s[..i])
  {
  }

  lemma {:induction false} FirstChar(c: seq<Byte>, rest: seq<Byte>)
    requires |c| > 0 && CharLen(c + rest) == |c|
    ensures Utf8(c + rest) <==> Utf8(rest)
    ensures Utf8(rest) ==> Chars(c + rest) == [c] + Chars(rest)
  {
    hide CharLen;
    assert (c + rest)[|c|..] == rest && (c + rest)[..|c|] == c;
  }

  lemma CutAt(a: seq<Byte>, b: seq<Byte>, n: nat)
    requires n <= |a|
    ensures a == a[..n] + a[n..] && a + b == a[..n] + (a[n..] + b) && (a + b)[..|a|] == a
  {
  }

  lemma Associates(a: seq<seq<Byte>>, b: seq<seq<Byte>>, c: seq<seq<Byte>>)
    ensures a + (b + c) == (a + b) + c
  {
  }

  /** Well-formed texts concatenate, and every character stays whole. */
  lemma {:induction false} Utf8Concat(a: seq<Byte>, b: seq<Byte>)
    requires Utf8(a) && Utf8(b)
    ensures Utf8(a + b) && Chars(a + b) == Chars(a) + Chars(b)
  {
    if a == [] {
      assert a + b == b;
    } else {
      var n := CharLen(a);
      assert n > 0;
      hide CharLen, Utf8, Chars;
      var c, rest := a[..n], a[n..];
      CutAt(a, b, n);
      CharLenGrows(a + b, |a|);
      FirstChar(c, rest);
      FirstChar(c, rest + b);
      Utf8Concat(rest, b);
      Associates([c], Chars(rest), Chars(b));
    }
  }

  /** Among any four neighbouring positions one is a boundary. */
  lemma {:induction false} TailRun(s: seq<Byte>, i: nat)
    requires Utf8(s) && i + 4 <= |s|
    ensures exists k :: i <= k < i + 4 && !Tail(s[k])
  {
    var n := CharLen(s);
    if i == 0 {
      assert !Tail(s[0]);
    } else if i < n {
      if n < |s| {
        assert CharLen(s[n..]) > 0 && s[n..][0] == s[n];
        assert !Tail(s[n]);
      }
    } else {
      TailRun(s[n..], i - n);
      var k :| i - n <= k < i - n + 4 && !Tail(s[n..][k]);
      assert !Tail(s[k + n]);
    }
  }

  /** `at` is the last boundary not after `limit`. */
  ghost predicate LastBoundary(s: seq<Byte>, limit: nat, at: nat) {
    at <= limit && IsBoundary(s, at) && forall k :: at < k <= limit ==> !IsBoundary(s, k)
  }

  /** `at` is the first boundary not before `limit`. */
  ghost predicate FirstBoundary(s: seq<Byte>, limit: nat, at: nat) {
    limit <= at <= |s| && IsBoundary(s, at) && forall k :: limit <= k < at ==> !IsBoundary(s, k)
  }

  lemma BoundaryWithin(s: seq<Byte>, i: nat) returns (k: nat)
    requires Utf8(s) && i + 4 <= |s|
    ensures i <= k < i + 4 && IsBoundary(s, k)
  {
    TailRun(s, i);
    k :| i <= k < i + 4 && !Tail(s[k]);
  }

  lemma LastBoundaryNear(s: seq<Byte>, limit: nat, at: nat)
    requires Utf8(s) && limit < |s| && LastBoundary(s, limit, at)
    ensures limit - at <= 3
  {
    if limit - at > 3 {
      var k := BoundaryWithin(s, limit - 3);
    }
  }

  lemma FirstBoundaryNear(s: seq<Byte>, limit: nat, at: nat)
    requires Utf8(s) && FirstBoundary(s, limit, at)
    ensures at - limit <= 3
  {
    if at - limit > 3 {
      var k := BoundaryWithin(s, limit);
    }
  }

  // ---------------------------------------------------------------- ASCII texts

  function Ascii(text: string): (s: seq<Byte>)
    ensures |s| == |text|
    ensures forall i :: 0 <= i < |text| && text[i] < 128 as char ==> s[i] as char == text[i]
  {
    seq(|text|, i requires 0 <= i < |text| => if text[i] < 128 as char then text[i] as int else 0x3F)
  }

  lemma {:induction false} AsciiIsUtf8(s: seq<Byte>)
    requires forall k :: 0 <= k < |s| ==> s[k] <= 0x7F
    ensures Utf8(s)
  {
    if s != [] {
      AsciiIsUtf8(s[1..]);
    }
  }

  // ---------------------------------------------------------------- truncate_middle

  /** The marker that stands for the part left out. */
  function Notice(elided: nat, total: nat): seq<Byte> {
    Ascii("\n\n[... output truncated: ") + Ascii(Decimal(elided)) + Ascii(" of ") + Ascii(Decimal(total))
      + Ascii(" bytes elided ...]\n\n")
  }

  /** What the marker says: how many bytes are left out, of how many, both in decimal. */
  lemma NoticeSays(elided: nat, total: nat) returns (out: string, of: string)
    ensures Notice(elided, total) == Ascii("\n\n[... output truncated: " + out + " of " + of + " bytes elided ...]\n\n")
    ensures Digits(out) == Some(elided) && Digits(of) == Some(total) && out != "" && of != ""
  {
    out, of := Decimal(elided), Decimal(total);
    DecimalDigits(elided);
    DecimalDigits(total);
    hide Ascii, Digits, Decimal;
    var a, b, c := "\n\n[... output truncated: ", " of ", " bytes elided ...]\n\n";
    AsciiConcat(a, out);
    AsciiConcat(a + out, b);
    AsciiConcat(a + out + b, of);
    AsciiConcat(a + out + b + of, c);
  }

  lemma AsciiConcat(a: string, b: string)
    ensures Ascii(a + b) == Ascii(a) + Ascii(b)
  {
  }

  lemma NoticeIsUtf8(elided: nat, total: nat)
    ensures Utf8(Notice(elided, total))
  {
    AsciiIsUtf8(Notice(elided, total));
  }

  /** What is left of `s` when the bytes `head..tail` are replaced by the marker. */
  function Elided(s: seq<Byte>, head: nat, tail: nat): seq<Byte>
    requires head <= tail <= |s|
  {
    s[..head] + Notice(tail - head, |s|) + s[tail..]
  }

  /** The result of `truncate_middle`: all of a text that fits, otherwise the largest whole-character
      head and tail that fit in half the budget each, around a marker with the exact byte count. */
  ghost predicate TruncatesTo(s: seq<Byte>, max: nat, r: seq<Byte>) {
    if |s| <= max then r == s
    else exists head: nat, tail: nat ::
      && head <= tail <= |s| && LastBoundary(s, max / 2, head) && FirstBoundary(s, |s| - max / 2, tail)
      && r == Elided(s, head, tail)
  }

  method TruncateMiddle(s: seq<Byte>, max: nat) returns (r: seq<Byte>)
    requires Utf8(s)
    ensures TruncatesTo(s, max, r)
  {
    if |s| <= max {
      return s;
    }
    var keep := max / 2;
    var headEnd: nat := keep;
    while !IsBoundary(s, headEnd)
      decreases headEnd
      invariant headEnd <= keep && forall k: nat :: headEnd < k <= keep ==> !IsBoundary(s, k)
    {
      headEnd := headEnd - 1;
    }
    var tailStart: nat := |s| - keep;
    while !IsBoundary(s, tailStart)
      decreases |s| - tailStart
      invariant |s| - keep <= tailStart <= |s| && forall k: nat :: |s| - keep <= k < tailStart ==> !IsBoundary(s, k)
    {
      tailStart := tailStart + 1;
    }
    assert LastBoundary(s, max / 2, headEnd) && FirstBoundary(s, |s| - max / 2, tailStart);
    r := Elided(s, headEnd, tailStart);
  }

  /** Whatever the limit, the kept parts are a prefix and a suffix of whole characters that total at
      most `max` bytes and at least `max - 7`, and the result is well-formed. */
  lemma TruncationBounds(s: seq<Byte>, max: nat, r: seq<Byte>) returns (head: nat, tail: nat)
    requires Utf8(s) && |s| > max && TruncatesTo(s, max, r)
    ensures head <= tail <= |s| && r == Elided(s, head, tail)
    ensures max - 7 <= head + (|s| - tail) <= max
    ensures Utf8(s[..head]) && Utf8(s[head..tail]) && Utf8(s[tail..]) && Utf8(r)
    ensures Chars(s) == Chars(s[..head]) + Chars(s[head..tail]) + Chars(s[tail..])
    ensures exists out, of ::
      && r == s[..head] + Ascii("\n\n[... output truncated: " + out + " of " + of + " bytes elided ...]\n\n") + s[tail..]
      && Digits(out) == Some(tail - head) && Digits(of) == Some(|s|) && out != "" && of != ""
  {
    hide Utf8, Chars, IsBoundary, Notice, Ascii, Digits;
    head, tail :| && head <= tail <= |s| && LastBoundary(s, max / 2, head) && FirstBoundary(s, |s| - max / 2, tail)
                  && r == Elided(s, head, tail);
    LastBoundaryNear(s, max / 2, head);
    FirstBoundaryNear(s, |s| - max / 2, tail);
    CutTwice(s, head, tail);
    NoticeIsUtf8(tail - head, |s|);
    var out, of := NoticeSays(tail - head, |s|);
    Utf8Concat(s[..head], Notice(tail - head, |s|));
    Utf8Concat(s[..head] + Notice(tail - head, |s|), s[tail..]);
  }

  lemma CutTwice(s: seq<Byte>, head: nat, tail: nat)
    requires Utf8(s) && head <= tail <= |s| && IsBoundary(s, head) && IsBoundary(s, tail)
    ensures Utf8(s[..head]) && Utf8(s[head..tail]) && Utf8(s[tail..])
    ensures Chars(s) == Chars(s[..head]) + Chars(s[head..tail]) + Chars(s[tail..])
  {
    hide CharLen, Chars, Utf8;
    BoundarySplits(s, tail);
    assert IsBoundary(s[..tail], head);
    BoundarySplits(s[..tail], head);
    assert s[..tail][..head] == s[..head] && s[..tail][head..] == s[head..tail];
    Utf8Concat(s[..head], s[head..tail]);
    Utf8Concat(s[..tail], s[tail..]);
    assert s[..head] + s[head..tail] == s[..tail] && s[..tail] + s[tail..] == s;
  }

  // ---------------------------------------------------------------- cap_result

  const MAX_TOOL_RESULT_BYTES: nat := 262144

  function CapMarker(): seq<Byte> {
    Ascii("\n[result truncated at 256 KiB]")
  }

  /** `cap_result`: the longest whole-character prefix within the limit, and a marker. */
  method CapResult(text: seq<Byte>) returns (s: seq<Byte>)
    requires Utf8(text)
    ensures Utf8(s)
    ensures |text| <= 256 * 1024 ==> s == text
    ensures |text| > 256 * 1024 ==>
      exists end: nat :: LastBoundary(text, 256 * 1024, end) && 256 * 1024 - end <= 3
                         && s == text[..end] + Ascii("\n[result truncated at 256 KiB]")
    ensures |s| <= MAX_TOOL_RESULT_BYTES + |CapMarker()|
  {
    s := text;
    if |s| > MAX_TOOL_RESULT_BYTES {
      var end: nat := MAX_TOOL_RESULT_BYTES;
      while !IsBoundary(s, end)
        decreases end
        invariant end <= MAX_TOOL_RESULT_BYTES
        invariant forall k: nat :: end < k <= MAX_TOOL_RESULT_BYTES ==> !IsBoundary(s, k)
      {
        end := end - 1;
      }
      assert LastBoundary(text, MAX_TOOL_RESULT_BYTES, end);
      LastBoundaryNear(text, MAX_TOOL_RESULT_BYTES, end);
      BoundarySplits(text, end);
      AsciiIsUtf8(CapMarker());
      Utf8Concat(text[..end], CapMarker());
      s := s[..end];
      s := s + CapMarker();
    }
  }
}
