/** Reading JSON the way serde_json is used here: `get`, `as_str`, `as_u64`, `as_array`; and the text
    helpers of the wire adapters. */
module JsonRead {
  import opened Wrappers
  import opened Llm
  import opened Hashlines

  /** `Value::get` with a string key: absent on anything but an object. */
  function Get(v: Json, key: string): Option<Json> {
    if v.JObject? && key in v.fields then Some(v.fields[key]) else None
  }

  function GetIn(v: Option<Json>, key: string): Option<Json> {
    if v.None? then None else Get(v.value, key)
  }

  function AsStr(v: Option<Json>): Option<string> {
    if v.Some? && v.value.JString? then Some(v.value.s) else None
  }

  const MAX_U64: nat := 0xFFFF_FFFF_FFFF_FFFF

  /** `as_u64`: an unsigned decimal integer in range. */
  function AsU64(v: Option<Json>): Option<nat> {
    if v.Some? && v.value.JNumber? && v.value.text != "" then
      match Digits(v.value.text)
      case None => None
      case Some(n) => if n <= MAX_U64 then Some(n) else None
    else None
  }

  function AsArray(v: Option<Json>): Option<seq<Json>> {
    if v.Some? && v.value.JArray? then Some(v.value.items) else None
  }

  function OrElse<T>(v: Option<T>, default: T): T {
    if v.Some? then v.value else default
  }

  /** Unicode white space, what `str::trim` removes. */
  predicate IsWhite(c: char) {
    || '\U{0009}' <= c <= '\U{000D}' || c == ' ' || c == '\U{0085}' || c == '\U{00A0}' || c == '\U{1680}'
    || '\U{2000}' <= c <= '\U{200A}' || c == '\U{2028}' || c == '\U{2029}' || c == '\U{202F}'
    || c == '\U{205F}' || c == '\U{3000}'
  }

  function TrimStart(s: string): string {
    if s != "" && IsWhite(s[0]) then TrimStart(s[1..]) else s
  }

  function TrimEnd(s: string): string {
    if s != "" && IsWhite(s[|s| - 1]) then TrimEnd(s[..|s| - 1]) else s
  }

  function Trim(s: string): string {
    TrimEnd(TrimStart(s))
  }

  /** The code points of white space. */
  lemma WhiteSpace(c: char)
    ensures IsWhite(c) <==>
      var n := c as int;
      || 9 <= n <= 13 || n == 32 || n == 133 || n == 160 || n == 5760 || 8192 <= n <= 8202
      || n in {8232, 8233, 8239, 8287, 12288}
  {}

  predicate AllWhite(s: string) {
    forall i :: 0 <= i < |s| ==> IsWhite(s[i])
  }

  lemma {:induction false} StartTrimmed(s: string) returns (head: string)
    ensures s == head + TrimStart(s) && AllWhite(head) && (TrimStart(s) != "" ==> !IsWhite(TrimStart(s)[0]))
  {
    if s != "" && IsWhite(s[0]) {
      head := StartTrimmed(s[1..]);
      head := [s[0]] + head;
    } else {
      head := "";
    }
  }

  lemma {:induction false} EndTrimmed(s: string) returns (tail: string)
    ensures s == TrimEnd(s) + tail && AllWhite(tail) && (TrimEnd(s) != "" ==> !IsWhite(TrimEnd(s)[|TrimEnd(s)| - 1]))
  {
    if s != "" && IsWhite(s[|s| - 1]) {
      tail := EndTrimmed(s[..|s| - 1]);
      tail := tail + [s[|s| - 1]];
    } else {
      tail := "";
    }
  }

  /** Trimming takes white space off both ends, all of it and nothing else. */
  lemma Trimmed(s: string) returns (head: string, tail: string)
    ensures s == head + Trim(s) + tail && AllWhite(head) && AllWhite(tail)
    ensures Trim(s) != "" ==> !IsWhite(Trim(s)[0]) && !IsWhite(Trim(s)[|Trim(s)| - 1])
  {
    head := StartTrimmed(s);
    tail := EndTrimmed(TrimStart(s));
    var t := TrimStart(s);
    assert Trim(s) != "" ==> Trim(s)[0] == t[0];
  }

  /** Which values are counts: unsigned decimal integers within 64 bits. */
  lemma CountsExactly(v: Json, n: nat)
    ensures AsU64(Some(v)) == Some(n) <==>
      v.JNumber? && v.text != "" && Digits(v.text) == Some(n) && n <= 0xFFFF_FFFF_FFFF_FFFF
    ensures AsU64(None) == None
  {}

  /** Tool arguments as they arrive: no text means an empty object, anything else must be JSON. */
  function ParseArguments(parse: string -> Option<Json>, text: string): Option<Json> {
    if Trim(text) == "" then Some(JObject(map[])) else parse(text)
  }

  /** Arguments of nothing but white space are an empty object; any others are what the parser makes of them. */
  lemma ArgumentsExactly(parse: string -> Option<Json>, text: string)
    ensures ParseArguments(parse, text) == if AllWhite(text) then Some(JObject(map[])) else parse(text)
  {
    var head, tail := Trimmed(text);
    assert text == head + Trim(text) + tail;
    if Trim(text) == "" {
      assert text == head + tail;
    } else {
      assert text[|head|] == Trim(text)[0];
    }
  }

  /** A value that some arguments text stands for. */
  ghost predicate Readable(parse: string -> Option<Json>, v: Json) {
    exists text :: ParseArguments(parse, text) == Some(v)
  }

  ghost predicate AllReadable(parse: string -> Option<Json>, blocks: seq<ContentBlock>) {
    forall b :: b in blocks && b.ToolUse? ==> Readable(parse, b.input)
  }

  /** What the parser can read, it reads back from what the printer makes of it. */
  ghost predicate Inverse(parse: string -> Option<Json>, show: Json -> string) {
    forall v {:trigger Readable(parse, v)} :: Readable(parse, v) ==> ParseArguments(parse, show(v)) == Some(v)
  }

  function Concat(pieces: seq<string>): string {
    if pieces == [] then "" else pieces[0] + Concat(pieces[1..])
  }
}
