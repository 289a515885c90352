/** The chat-completions adapter (crates/llm/src/chatcompletions.rs): the transcript flattened into
    system, user, assistant and tool entries, and a response read back. `show` and `parse` stand for the
    JSON printer and parser. */
module ChatCompletions {
  import opened Wrappers
  import opened Llm
  import opened JsonRead

  datatype EntryRole = SystemEntry | UserEntry | AssistantEntry | ToolEntry

  datatype Call = Call(id: string, name: string, arguments: string)

  datatype Entry = Entry(role: EntryRole, content: Option<string>, calls: seq<Call>, callId: Option<string>)

  // ---------------------------------------------------------------- to_wire

  function CallsIn(show: Json -> string, blocks: seq<ContentBlock>): seq<Call> {
    if blocks == [] then []
    else (if blocks[0].ToolUse? then [Call(blocks[0].id, blocks[0].name, show(blocks[0].input))] else [])
         + CallsIn(show, blocks[1..])
  }

  /** A tool result's text; an error is marked in the text itself. */
  function OutputText(content: string, isError: bool): string {
    if isError then "ERROR: " + content else content
  }

  function ToolEntryFor(b: ContentBlock): Entry
    requires b.ToolResult?
  {
    Entry(ToolEntry, Some(OutputText(b.content, b.isError)), [], Some(b.toolUseId))
  }

  function ToolEntries(blocks: seq<ContentBlock>): seq<Entry> {
    if blocks == [] then []
    else (if blocks[0].ToolResult? then [ToolEntryFor(blocks[0])] else []) + ToolEntries(blocks[1..])
  }

  function SaidBy(role: EntryRole, texts: seq<string>, calls: seq<Call>): seq<Entry> {
    if texts == [] && calls == [] then []
    else [Entry(role, if texts == [] then None else Some(Join(texts, "\n")), calls, None)]
  }

  /** The entries of one message: tool results first, so that they follow the calls directly. */
  function Entries(show: Json -> string, m: Message): seq<Entry> {
    if m.role.Assistant? then SaidBy(AssistantEntry, TextsIn(m.content), CallsIn(show, m.content))
    else ToolEntries(m.content) + SaidBy(UserEntry, TextsIn(m.content), [])
  }

  function AllEntries(show: Json -> string, ms: seq<Message>): seq<Entry> {
    if ms == [] then [] else Entries(show, ms[0]) + AllEntries(show, ms[1..])
  }

  function SystemEntries(system: string): seq<Entry> {
    if system == "" then [] else [Entry(SystemEntry, Some(system), [], None)]
  }

  lemma {:induction false} TextsSnoc(bs: seq<ContentBlock>, b: ContentBlock)
    ensures TextsIn(bs + [b]) == TextsIn(bs) + if b.Text? then [b.text] else []
  {
    if bs == [] {
      assert bs + [b] == [b] && [b][1..] == [];
    } else {
      TextsSnoc(bs[1..], b);
      assert (bs + [b])[1..] == bs[1..] + [b];
    }
  }

  lemma {:induction false} CallsSnoc(show: Json -> string, bs: seq<ContentBlock>, b: ContentBlock)
    ensures CallsIn(show, bs + [b]) == CallsIn(show, bs) + if b.ToolUse? then [Call(b.id, b.name, show(b.input))] else []
  {
    if bs == [] {
      assert bs + [b] == [b] && [b][1..] == [];
    } else {
      CallsSnoc(show, bs[1..], b);
      assert (bs + [b])[1..] == bs[1..] + [b];
    }
  }

  lemma {:induction false} ToolEntriesSnoc(bs: seq<ContentBlock>, b: ContentBlock)
    ensures ToolEntries(bs + [b]) == ToolEntries(bs) + if b.ToolResult? then [ToolEntryFor(b)] else []
  {
    hide ToolEntryFor;
    if bs == [] {
      assert bs + [b] == [b] && [b][1..] == [];
    } else {
      ToolEntriesSnoc(bs[1..], b);
      assert (bs + [b])[1..] == bs[1..] + [b];
    }
  }

  lemma {:induction false} EntriesSnoc(show: Json -> string, ms: seq<Message>, m: Message)
    ensures AllEntries(show, ms + [m]) == AllEntries(show, ms) + Entries(show, m)
  {
    hide Entries;
    if ms == [] {
      assert ms + [m] == [m] && [m][1..] == [];
      assert Entries(show, m) + [] == Entries(show, m) == [] + Entries(show, m);
    } else {
      EntriesSnoc(show, ms[1..], m);
      assert (ms + [m])[1..] == ms[1..] + [m];
    }
  }

  /** What a tool's result looks like on the wire: its own text under its call's id, marked exactly if it is
      an error. */
  predicate IsToolEntry(e: Entry, b: ContentBlock)
    requires b.ToolResult?
  {
    && e.role.ToolEntry? && e.callId == Some(b.toolUseId) && e.calls == []
    && e.content == Some(if b.isError then "ERROR: " + b.content else b.content)
  }

  lemma {:induction false} ToolEntryAt(bs: seq<ContentBlock>, j: nat)
    requires j < |bs| && bs[j].ToolResult?
    ensures var i := |ToolEntries(bs[..j])|; i < |ToolEntries(bs)| && IsToolEntry(ToolEntries(bs)[i], bs[j])
    ensures |ToolEntries(bs)| == |AnswersIn(bs)| && |ToolEntries(bs[..j])| == |AnswersIn(bs[..j])|
  {
    if j > 0 {
      ToolEntryAt(bs[1..], j - 1);
      assert bs[..j][1..] == bs[1..][..j - 1];
    } else {
      ToolEntryCount(bs[1..]);
    }
  }

  lemma {:induction false} ToolEntryCount(bs: seq<ContentBlock>)
    ensures |ToolEntries(bs)| == |AnswersIn(bs)|
  {
    if bs != [] {
      ToolEntryCount(bs[1..]);
    }
  }

  /** A user's message on the wire: its tool results first, each with its own text, then all its text in one
      entry, if it has any; and nothing else. */
  lemma UserReaches(show: Json -> string, m: Message)
    requires m.role.User?
    ensures var es, n := Entries(show, m), |AnswersIn(m.content)|;
      && |es| == n + (if TextsIn(m.content) == [] then 0 else 1)
      && (forall j :: 0 <= j < |m.content| && m.content[j].ToolResult? ==>
            |AnswersIn(m.content[..j])| < n && IsToolEntry(es[|AnswersIn(m.content[..j])|], m.content[j]))
      && (TextsIn(m.content) != [] ==> es[n] == Entry(UserEntry, Some(TextOf(m)), [], None))
  {
    ToolEntryCount(m.content);
    hide ToolEntries, AnswersIn, TextsIn, Join, IsToolEntry;
    forall j | 0 <= j < |m.content| && m.content[j].ToolResult?
      ensures var i := |AnswersIn(m.content[..j])|;
        i < |ToolEntries(m.content)| && IsToolEntry(ToolEntries(m.content)[i], m.content[j])
    {
      ToolEntryAt(m.content, j);
    }
  }

  /** The entry list of `to_wire`. */
  method ToWire(show: Json -> string, system: string, messages: seq<Message>) returns (out: seq<Entry>)
    ensures out == SystemEntries(system) + AllEntries(show, messages)
  {
    hide Entries;
    out := [];
    if system != "" {
      out := out + [Entry(SystemEntry, Some(system), [], None)];
    }
    assert out == SystemEntries(system) + AllEntries(show, messages[..0]);
    hide SystemEntries, AllEntries;
    for i := 0 to |messages|
      invariant out == SystemEntries(system) + AllEntries(show, messages[..i])
    {
      assert messages[..i + 1] == messages[..i] + [messages[i]];
      EntriesSnoc(show, messages[..i], messages[i]);
      out := Push(show, out, messages[i]);
    }
    assert messages[..|messages|] == messages;
  }

  /** One turn of the loop over messages: what the message adds to the list. */
  method Push(show: Json -> string, before: seq<Entry>, m: Message) returns (out: seq<Entry>)
    ensures out == before + Entries(show, m)
  {
    hide ToolEntryFor, Join;
    out := before;
    var text: seq<string> := [];
    var calls: seq<Call> := [];
    assert before + [] == before;
    for j := 0 to |m.content|
      invariant text == TextsIn(m.content[..j])
      invariant calls == if m.role.Assistant? then CallsIn(show, m.content[..j]) else []
      invariant out == before + if m.role.Assistant? then [] else ToolEntries(m.content[..j])
    {
      var b := m.content[j];
      assert m.content[..j + 1] == m.content[..j] + [b];
      TextsSnoc(m.content[..j], b);
      CallsSnoc(show, m.content[..j], b);
      ToolEntriesSnoc(m.content[..j], b);
      if b.Text? {
        text := text + [b.text];
      } else if b.ToolUse? && m.role.Assistant? {
        calls := calls + [Call(b.id, b.name, show(b.input))];
      } else if b.ToolResult? && m.role.User? {
        out := out + [ToolEntryFor(b)];
      }
    }
    assert m.content[..|m.content|] == m.content;
    if text == [] && calls == [] {
      assert out + [] == out;
      return;
    }
    var role := if m.role.Assistant? then AssistantEntry else UserEntry;
    out := out + [Entry(role, if text == [] then None else Some(Join(text, "\n")), calls, None)];
  }

  // ---------------------------------------------------------------- pairing on the wire

  function CallIds(calls: seq<Call>): seq<string> {
    if calls == [] then [] else [calls[0].id] + CallIds(calls[1..])
  }

  /** The list answers `ids` at its head: one tool entry each, in order. */
  predicate Answers(wire: seq<Entry>, ids: seq<string>) {
    |wire| >= |ids| && forall k :: 0 <= k < |ids| ==> wire[k].role.ToolEntry? && wire[k].callId == Some(ids[k])
  }

  /** What the protocol demands: every assistant entry with calls is followed at once by one tool entry
      for each call, in order, and tool entries stand nowhere else. */
  predicate WellPaired(wire: seq<Entry>)
    decreases |wire|
  {
    if wire == [] then true
    else
      var n := |CallIds(wire[0].calls)|;
      !wire[0].role.ToolEntry? && Answers(wire[1..], CallIds(wire[0].calls)) && WellPaired(wire[1 + n..])
  }

  /** A transcript whose calls and results correspond: an assistant message that calls tools is followed
      by a user message with exactly its results in order (text may accompany them), and results come
      nowhere else. */
  predicate WellFormed(ms: seq<Message>)
    decreases |ms|
  {
    if ms == [] then true
    else if ms[0].role.Assistant? && UsesIn(ms[0].content) != [] then
      |ms| >= 2 && ms[1].role.User? && AnswersIn(ms[1].content) == UsesIn(ms[0].content) && WellFormed(ms[2..])
    else (ms[0].role.User? ==> AnswersIn(ms[0].content) == []) && WellFormed(ms[1..])
  }

  lemma {:induction false} CallsAreUses(show: Json -> string, bs: seq<ContentBlock>)
    ensures CallIds(CallsIn(show, bs)) == UsesIn(bs)
  {
    if bs != [] {
      CallsAreUses(show, bs[1..]);
      if bs[0].ToolUse? {
        assert CallsIn(show, bs)[1..] == CallsIn(show, bs[1..]);
      } else {
        assert CallsIn(show, bs) == CallsIn(show, bs[1..]) && UsesIn(bs) == UsesIn(bs[1..]);
      }
    }
  }

  lemma {:induction false} EntriesAnswer(bs: seq<ContentBlock>)
    ensures |ToolEntries(bs)| == |AnswersIn(bs)| && Answers(ToolEntries(bs), AnswersIn(bs))
  {
    if bs != [] {
      EntriesAnswer(bs[1..]);
      if bs[0].ToolResult? {
        var es, ids := ToolEntries(bs), AnswersIn(bs);
        forall k | 0 <= k < |ids|
          ensures es[k].role.ToolEntry? && es[k].callId == Some(ids[k])
        {
          if k > 0 {
            assert es[k] == ToolEntries(bs[1..])[k - 1] && ids[k] == AnswersIn(bs[1..])[k - 1];
          }
        }
      }
    }
  }

  // An entry that calls nothing, in front of a well-paired list.
  lemma SayFirst(e: Entry, wire: seq<Entry>)
    requires !e.role.ToolEntry? && e.calls == [] && WellPaired(wire)
    ensures WellPaired([e] + wire)
  {
    assert ([e] + wire)[1..] == wire;
  }

  // An entry with calls and its answers, in front of a well-paired list.
  lemma AskFirst(e: Entry, answers: seq<Entry>, wire: seq<Entry>)
    requires !e.role.ToolEntry? && Answers(answers, CallIds(e.calls)) && |answers| == |CallIds(e.calls)| && WellPaired(wire)
    ensures WellPaired([e] + answers + wire)
  {
    var all := [e] + answers + wire;
    assert all[1..] == answers + wire;
    assert all[1 + |answers|..] == wire;
    forall k | 0 <= k < |answers|
      ensures all[1..][k] == answers[k]
    {
    }
  }

  lemma {:induction false} AskStep(show: Json -> string, m: Message, reply: Message, later: seq<Entry>)
    requires m.role.Assistant? && reply.role.User? && UsesIn(m.content) != []
    requires AnswersIn(reply.content) == UsesIn(m.content) && WellPaired(later)
    ensures WellPaired(Entries(show, m) + (Entries(show, reply) + later))
  {
    hide WellPaired, Answers, ToolEntryFor, Join, ToolEntries, CallsIn, TextsIn, UsesIn, AnswersIn;
    CallsAreUses(show, m.content);
    assert CallIds([]) == [];
    EntriesAnswer(reply.content);
    var ask := Entries(show, m)[0];
    var answers, said := ToolEntries(reply.content), SaidBy(UserEntry, TextsIn(reply.content), []);
    SaidFirst(UserEntry, TextsIn(reply.content), later);
    AskFirst(ask, answers, said + later);
    hide SaidBy;
    assert [ask] + answers + (said + later) == [ask] + ((answers + said) + later);
  }

  lemma {:induction false} SayStep(show: Json -> string, m: Message, later: seq<Entry>)
    requires if m.role.Assistant? then UsesIn(m.content) == [] else AnswersIn(m.content) == []
    requires WellPaired(later)
    ensures WellPaired(Entries(show, m) + later)
  {
    hide WellPaired, Answers, ToolEntryFor, Join, ToolEntries, CallsIn, TextsIn, UsesIn, AnswersIn;
    if m.role.Assistant? {
      CallsAreUses(show, m.content);
      NoCalls(CallsIn(show, m.content));
      SaidFirst(AssistantEntry, TextsIn(m.content), later);
    } else {
      EntriesAnswer(m.content);
      var said := SaidBy(UserEntry, TextsIn(m.content), []);
      assert [] + said == said;
      SaidFirst(UserEntry, TextsIn(m.content), later);
    }
  }

  lemma NoCalls(calls: seq<Call>)
    requires CallIds(calls) == []
    ensures calls == []
  {
  }

  /** Flattening keeps the pairing of every well-formed transcript. */
  lemma {:induction false} FlatteningKeepsPairing(show: Json -> string, ms: seq<Message>)
    requires WellFormed(ms)
    ensures WellPaired(AllEntries(show, ms))
    decreases |ms|
  {
    hide WellPaired, Entries, UsesIn, AnswersIn;
    if ms == [] {
      NothingPaired();
    } else if ms[0].role.Assistant? && UsesIn(ms[0].content) != [] {
      FlatteningKeepsPairing(show, ms[2..]);
      AskStep(show, ms[0], ms[1], AllEntries(show, ms[2..]));
      assert ms[1..][1..] == ms[2..];
    } else {
      FlatteningKeepsPairing(show, ms[1..]);
      SayStep(show, ms[0], AllEntries(show, ms[1..]));
    }
  }

  /** Results only where the message before asked for them. */
  ghost predicate NoStrayResults(ms: seq<Message>) {
    forall i {:trigger ms[i]} :: 0 <= i < |ms| && ms[i].role.User? && AnswersIn(ms[i].content) != [] ==>
      i > 0 && Uses(ms[i - 1]) != []
  }

  /** The transcripts the agent keeps are well-formed. */
  lemma {:induction false} PairedIsWellFormed(ms: seq<Message>)
    requires PairedFrom(ms, 0) && NoStrayResults(ms)
    ensures WellFormed(ms)
    decreases |ms|
  {
    hide UsesIn, AnswersIn;
    if ms != [] {
      var n := if Uses(ms[0]) != [] then 2 else 1;
      var rest := ms[n..];
      forall i {:trigger Uses(rest[i])} | 0 <= i < |rest| && Uses(rest[i]) != []
        ensures i + 1 < |rest| && AnswersExactly(rest[i + 1], Uses(rest[i]))
      {
        assert rest[i] == ms[i + n] && Uses(ms[i + n]) != [];
        assert rest[i + 1] == ms[i + n + 1];
      }
      forall i {:trigger rest[i]} | 0 <= i < |rest| && rest[i].role.User? && AnswersIn(rest[i].content) != []
        ensures i > 0 && Uses(rest[i - 1]) != []
      {
        assert rest[i] == ms[i + n];
        assert Uses(ms[i + n - 1]) != [];
        if i > 0 {
          assert rest[i - 1] == ms[i + n - 1];
        }
      }
      PairedIsWellFormed(rest);
    }
  }

  lemma NothingPaired()
    ensures WellPaired([])
  {
  }

  lemma SaidFirst(role: EntryRole, texts: seq<string>, wire: seq<Entry>)
    requires !role.ToolEntry? && WellPaired(wire)
    ensures WellPaired(SaidBy(role, texts, []) + wire)
  {
    hide WellPaired;
    if texts == [] {
      assert [] + wire == wire;
    } else {
      SayFirst(SaidBy(role, texts, [])[0], wire);
    }
  }

  /** The whole request list is well paired, with or without a system prompt. */
  lemma RequestPaired(show: Json -> string, system: string, ms: seq<Message>)
    requires WellFormed(ms)
    ensures WellPaired(SystemEntries(system) + AllEntries(show, ms))
  {
    hide WellPaired, AllEntries;
    FlatteningKeepsPairing(show, ms);
    if system == "" {
      assert [] + AllEntries(show, ms) == AllEntries(show, ms);
    } else {
      SayFirst(Entry(SystemEntry, Some(system), [], None), AllEntries(show, ms));
    }
  }

  // ---------------------------------------------------------------- from_wire

  datatype ChatError = NoChoices | BadArguments(name: string)

  datatype Choice = Choice(content: Option<string>, calls: seq<Call>, finish: Option<string>)

  function UsesOf(parse: string -> Option<Json>, calls: seq<Call>): Result<seq<ContentBlock>, ChatError> {
    if calls == [] then Ok([])
    else
      match UsesOf(parse, calls[..|calls| - 1])
      case Err(e) => Err(e)
      case Ok(uses) =>
        var c := calls[|calls| - 1];
        match ParseArguments(parse, c.arguments)
        case None => Err(BadArguments(c.name))
        case Some(input) => Ok(uses + [ToolUse(c.id, c.name, input)])
  }

  /** Tool calls decide the stop reason, whatever the finish reason says. */
  function StopOf(choice: Choice): StopReason {
    if choice.calls != [] then ToolUseStop
    else if choice.finish.None? || choice.finish.value == "stop" then EndTurn
    else if choice.finish.value == "length" then MaxTokens
    else if choice.finish.value == "tool_calls" then ToolUseStop
    else Other(choice.finish.value)
  }

  function SaidText(choice: Choice): seq<ContentBlock> {
    if choice.content.Some? && choice.content.value != "" then [Text(choice.content.value)] else []
  }

  /** `from_wire`: the first choice only. */
  method FromWire(parse: string -> Option<Json>, choices: seq<Choice>, usage: Option<Usage>)
    returns (r: Result<Response, ChatError>)
    ensures choices == [] ==> r == Err(NoChoices)
    ensures choices != [] ==>
      r == match UsesOf(parse, choices[0].calls)
           case Err(e) => Err(e)
           case Ok(uses) => Ok(Response(SaidText(choices[0]) + uses, StopOf(choices[0]), OrElse(usage, Usage(0, 0))))
  {
    hide ParseArguments;
    if choices == [] {
      return Err(NoChoices);
    }
    var choice := choices[0];
    var content: seq<ContentBlock> := [];
    if choice.content.Some? && choice.content.value != "" {
      content := content + [Text(choice.content.value)];
    }
    assert content == SaidText(choice) + [];
    for i := 0 to |choice.calls|
      invariant UsesOf(parse, choice.calls[..i]).Ok? && content == SaidText(choice) + UsesOf(parse, choice.calls[..i]).value
    {
      var call := choice.calls[i];
      assert choice.calls[..i + 1][..i] == choice.calls[..i];
      var input := ParseArguments(parse, call.arguments);
      if input.None? {
        UsesFail(parse, choice.calls, i + 1);
        return Err(BadArguments(call.name));
      }
      content := content + [ToolUse(call.id, call.name, input.value)];
    }
    assert choice.calls[..|choice.calls|] == choice.calls;
    r := Ok(Response(content, StopOf(choice), OrElse(usage, Usage(0, 0))));
  }

  lemma {:induction false} UsesFail(parse: string -> Option<Json>, calls: seq<Call>, n: nat)
    requires n <= |calls| && UsesOf(parse, calls[..n]).Err?
    ensures UsesOf(parse, calls) == UsesOf(parse, calls[..n])
    decreases |calls|
  {
    if n == |calls| {
      assert calls[..n] == calls;
    } else {
      assert calls[..|calls| - 1][..n] == calls[..n];
      UsesFail(parse, calls[..|calls| - 1], n);
    }
  }

  /** The finish reasons of a choice without calls; with calls none of them matters. */
  lemma FinishReasons(choice: Choice)
    ensures choice.calls != [] ==> StopOf(choice) == ToolUseStop
    ensures choice.calls == [] ==>
      match choice.finish
      case None => StopOf(choice) == EndTurn
      case Some("stop") => StopOf(choice) == EndTurn
      case Some("length") => StopOf(choice) == MaxTokens
      case Some("tool_calls") => StopOf(choice) == ToolUseStop
      case Some(other) => StopOf(choice) == Other(other)
  {}

  // ---------------------------------------------------------------- an assistant message there and back

  function ToolUses(blocks: seq<ContentBlock>): seq<ContentBlock> {
    if blocks == [] then [] else (if blocks[0].ToolUse? then [blocks[0]] else []) + ToolUses(blocks[1..])
  }

  lemma {:induction false} UsesOfSnoc(parse: string -> Option<Json>, calls: seq<Call>, c: Call)
    requires UsesOf(parse, calls).Ok? && ParseArguments(parse, c.arguments).Some?
    ensures UsesOf(parse, calls + [c])
         == Ok(UsesOf(parse, calls).value + [ToolUse(c.id, c.name, ParseArguments(parse, c.arguments).value)])
  {
    hide ParseArguments;
    assert (calls + [c])[..|calls|] == calls;
  }

  lemma {:induction false} UsesReturn(parse: string -> Option<Json>, show: Json -> string, bs: seq<ContentBlock>)
    requires Inverse(parse, show) && AllReadable(parse, bs)
    ensures UsesOf(parse, CallsIn(show, bs)) == Ok(ToolUses(bs))
  {
    hide ParseArguments, Readable;
    if bs != [] {
      var init, last := bs[..|bs| - 1], bs[|bs| - 1];
      assert bs == init + [last];
      assert last in bs && forall b :: b in init ==> b in bs;
      UsesReturn(parse, show, init);
      CallsSnoc(show, init, last);
      ToolUsesSnoc(init, last);
      if last.ToolUse? {
        UsesOfSnoc(parse, CallsIn(show, init), Call(last.id, last.name, show(last.input)));
      } else {
        assert CallsIn(show, bs) == CallsIn(show, init) && ToolUses(bs) == ToolUses(init);
      }
    }
  }

  lemma {:induction false} ToolUsesSnoc(bs: seq<ContentBlock>, b: ContentBlock)
    ensures ToolUses(bs + [b]) == ToolUses(bs) + if b.ToolUse? then [b] else []
  {
    if bs == [] {
      assert bs + [b] == [b] && [b][1..] == [];
    } else {
      ToolUsesSnoc(bs[1..], b);
      assert (bs + [b])[1..] == bs[1..] + [b];
      var first, last := if bs[0].ToolUse? then [bs[0]] else [], if b.ToolUse? then [b] else [];
      assert first + (ToolUses(bs[1..]) + last) == (first + ToolUses(bs[1..])) + last;
    }
  }

  /** An assistant message sent and read back is the same text and the same calls: its texts joined into
      one block, the calls after it, everything else gone. */
  lemma AssistantReturns(parse: string -> Option<Json>, show: Json -> string, m: Message)
    requires Inverse(parse, show) && AllReadable(parse, m.content) && m.role.Assistant? && Entries(show, m) != []
    ensures |Entries(show, m)| == 1
    ensures var e := Entries(show, m)[0];
      var choice := Choice(e.content, e.calls, None);
      && SaidText(choice) == (if TextOf(m) == "" then [] else [Text(TextOf(m))])
      && UsesOf(parse, e.calls) == Ok(ToolUses(m.content))
      && (StopOf(choice) == ToolUseStop <==> UsesIn(m.content) != [])
  {
    UsesReturn(parse, show, m.content);
    CallsAreUses(show, m.content);
    hide Inverse, AllReadable, UsesOf, CallsIn, UsesIn;
    assert CallIds([]) == [];
  }
}
