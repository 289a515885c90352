/** Reading a whole Codex event stream (crates/llm/src/codex.rs `parse_stream`, crates/llm/src/sse.rs). */
module CodexStream {
  import opened Wrappers
  import opened Llm
  import opened JsonRead
  import opened TextLines
  import opened Codex

  /** The payload of a `data:` line; blanks and `[DONE]` are skipped. */
  function DataOf(line: string): Option<string> {
    var t := Trim(line);
    if !("data:" <= t) then None
    else if Trim(t[5..]) == "" || Trim(t[5..]) == "[DONE]" then None
    else Some(Trim(t[5..]))
  }

  function EventOf(parse: string -> Option<Json>, line: string): Option<Json> {
    match DataOf(line)
    case None => None
    case Some(data) =>
      match parse(data)
      case None => None
      case Some(v) => if v.JObject? then Some(v) else None
  }

  /** The JSON objects on the `data:` lines, in order; malformed lines are ignored. */
  function EventsOf(parse: string -> Option<Json>, lines: seq<string>): seq<Json> {
    if lines == [] then []
    else
      var last := EventOf(parse, lines[|lines| - 1]);
      EventsOf(parse, lines[..|lines| - 1]) + if last.Some? then [last.value] else []
  }

  predicate IsDone(ev: Json) { TypeOf(ev) == "response.output_item.done" }

  predicate IsEnd(ev: Json) { TypeOf(ev) == "response.completed" || TypeOf(ev) == "response.incomplete" }

  predicate IsFailure(ev: Json) { TypeOf(ev) == "response.failed" || TypeOf(ev) == "error" }

  function Or(a: Option<string>, b: Option<string>): Option<string> {
    if a.Some? then a else b
  }

  function FailureMessage(ev: Json): string {
    OrElse(Or(Or(AsStr(GetIn(Get(ev, "error"), "message")), AsStr(Get(ev, "message"))),
              AsStr(GetIn(GetIn(Get(ev, "response"), "error"), "message"))), "request failed")
  }

  /** Where a failure event carries its message: in its error, in itself, or in its response's error, the
      first of these that has one; without any there is a stock one. */
  lemma FailureSays(message: string, other: string)
    ensures FailureMessage(JObject(map["error" := JObject(map["message" := JString(message)]), "message" := JString(other)]))
         == message
    ensures FailureMessage(JObject(map["message" := JString(message),
              "response" := JObject(map["error" := JObject(map["message" := JString(other)])])])) == message
    ensures FailureMessage(JObject(map["response" := JObject(map["error" := JObject(map["message" := JString(message)])])]))
         == message
    ensures FailureMessage(JObject(map[])) == "request failed"
  {}

  /** Which events end the stream, which fail it and which finish an item, by their type. */
  lemma EventKinds(kind: string)
    ensures var ev := JObject(map["type" := JString(kind)]);
      && (IsDone(ev) <==> kind == "response.output_item.done")
      && (IsEnd(ev) <==> kind == "response.completed" || kind == "response.incomplete")
      && (IsFailure(ev) <==> kind == "response.failed" || kind == "error")
  {}

  /** Which lines carry data: those that start with the field name, after any blanks, and have more behind it
      than blanks or the end mark. */
  lemma DataLines(line: string, data: string)
    ensures DataOf(line) == Some(data) <==>
      "data:" <= Trim(line) && data == Trim(Trim(line)[|"data:"|..]) && data != "" && data != "[DONE]"
  {}

  /** Events are the objects among the data. */
  lemma EventsAreObjects(parse: string -> Option<Json>, line: string, v: Json)
    ensures EventOf(parse, line) == Some(v) <==>
      exists data :: DataOf(line) == Some(data) && parse(data) == Some(v) && v.JObject?
  {
    if EventOf(parse, line) == Some(v) {
      assert DataOf(line) == Some(DataOf(line).value);
    }
  }

  /** What the finished items make of a terminal body: nothing if it brings output of its own; its output if it
      is an object without, its other fields kept, or null; and no body at all otherwise. */
  lemma FilledExactly(body: Json, items: seq<Json>)
    ensures body.JObject? ==>
      Filled(body, items) == Some(if OutputOf(body) != [] then body else JObject(body.fields["output" := JArray(items)]))
    ensures body.JNull? ==> Filled(body, items) == Some(JObject(map["output" := JArray(items)]))
    ensures !body.JObject? && !body.JNull? ==> Filled(body, items) == None
  {}

  /** The items finished by a list of events. */
  function ItemsDone(evs: seq<Json>): seq<Json> {
    if evs == [] then []
    else
      var last := evs[|evs| - 1];
      ItemsDone(evs[..|evs| - 1]) + if IsDone(last) && Get(last, "item").Some? then [Get(last, "item").value] else []
  }

  /** The response body of the last terminal event. */
  function LastBody(evs: seq<Json>): Option<Json> {
    if evs == [] then None
    else if IsEnd(evs[|evs| - 1]) then Get(evs[|evs| - 1], "response")
    else LastBody(evs[..|evs| - 1])
  }

  lemma {:induction false} NoBody(evs: seq<Json>)
    ensures (forall ev :: ev in evs ==> !IsEnd(ev)) ==> LastBody(evs) == None
  {
    if evs != [] {
      NoBody(evs[..|evs| - 1]);
    }
  }

  predicate NoFailure(evs: seq<Json>) {
    forall ev :: ev in evs ==> !IsFailure(ev)
  }

  /** The body with the finished items as its output, unless it brought output of its own. */
  function Filled(body: Json, items: seq<Json>): Option<Json> {
    if OutputOf(body) != [] then Some(body)
    else if body.JObject? then Some(JObject(body.fields["output" := JArray(items)]))
    else if body.JNull? then Some(JObject(map["output" := JArray(items)]))
    else None
  }

  lemma FilledOutput(body: Json, items: seq<Json>)
    ensures Filled(body, items).Some? ==>
      OutputOf(Filled(body, items).value) == if OutputOf(body) != [] then OutputOf(body) else items
  {
  }

  predicate Contains(s: string, sub: string) {
    exists i :: 0 <= i <= |s| && sub <= s[i..]
  }

  /** What reading the stream must give: the first failure event if there is one, else the terminal
      body with the items filled in. */
  function StreamOutcome(parse: string -> Option<Json>, evs: seq<Json>): Result<Response, CodexError> {
    if LastBody(evs).None? then Err(Failed("codex: stream ended without a completed response"))
    else
      match Filled(LastBody(evs).value, ItemsDone(evs))
      case None => Err(NotAnObject)
      case Some(body) => ResponseOf(parse, body)
  }

  /** `parse_stream`. */
  method ParseStream(parse: string -> Option<Json>, raw: string) returns (r: Result<Response, CodexError>)
    ensures !Contains(raw, "data:") ==>
      r == (match parse(raw) case None => Err(Undecodable) case Some(body) => ResponseOf(parse, body))
    ensures var evs := EventsOf(parse, LinesOf(raw));
      Contains(raw, "data:") ==>
        && (NoFailure(evs) ==> r == StreamOutcome(parse, evs))
        && (NoFailure(evs) && (forall ev :: ev in evs ==> !IsEnd(ev)) ==>
              r == Err(Failed("codex: stream ended without a completed response")))
        && (!NoFailure(evs) ==>
              exists k :: 0 <= k < |evs| && IsFailure(evs[k]) && NoFailure(evs[..k])
                          && r == Err(Failed("codex: " + FailureMessage(evs[k]))))
  {
    NoBody(EventsOf(parse, LinesOf(raw)));
    hide ResponseOf, FailureMessage, EventOf, Filled, LinesOf, Contains, IsDone, IsEnd, IsFailure;
    if !Contains(raw, "data:") {
      var body := parse(raw);
      if body.None? {
        return Err(Undecodable);
      }
      r := ToResponse(parse, body.value);
      return;
    }
    var lines := LinesOf(raw);
    var completed: Option<Json> := None;
    var items: seq<Json> := [];
    ghost var evs: seq<Json> := [];
    assert completed == LastBody(evs) && items == ItemsDone(evs) && evs == EventsOf(parse, lines[..0]);
    hide LastBody, ItemsDone, NoFailure, EventsOf;
    for i := 0 to |lines|
      invariant evs == EventsOf(parse, lines[..i]) && NoFailure(evs)
      invariant completed == LastBody(evs) && items == ItemsDone(evs)
    {
      var ev := EventOf(parse, lines[i]);
      EventsSnoc(parse, lines, i);
      if ev.None? {
        continue;
      }
      EventSnoc(evs, ev.value);
      if IsDone(ev.value) {
        var item := Get(ev.value, "item");
        if item.Some? {
          items := items + [item.value];
        }
      } else if IsEnd(ev.value) {
        completed := Get(ev.value, "response");
      } else if IsFailure(ev.value) {
        FirstFailure(parse, lines, i, evs, ev.value);
        return Err(Failed("codex: " + FailureMessage(ev.value)));
      }
      evs := evs + [ev.value];
    }
    assert lines[..|lines|] == lines;
    if completed.None? {
      return Err(Failed("codex: stream ended without a completed response"));
    }
    var body := Filled(completed.value, items);
    if body.None? {
      return Err(NotAnObject);
    }
    r := ToResponse(parse, body.value);
  }

  lemma NotTwoKinds(ev: Json)
    ensures IsDone(ev) ==> !IsEnd(ev) && !IsFailure(ev)
    ensures IsEnd(ev) ==> !IsFailure(ev)
  {
    hide TypeOf;
  }

  lemma EventsSnoc(parse: string -> Option<Json>, lines: seq<string>, i: nat)
    requires i < |lines|
    ensures EventsOf(parse, lines[..i + 1])
         == EventsOf(parse, lines[..i]) + if EventOf(parse, lines[i]).Some? then [EventOf(parse, lines[i]).value] else []
  {
    hide EventOf;
    assert lines[..i + 1][..i] == lines[..i];
  }

  // One more event.
  lemma EventSnoc(evs: seq<Json>, ev: Json)
    requires NoFailure(evs)
    ensures NoFailure(evs + [ev]) <==> !IsFailure(ev)
    ensures IsDone(ev) ==> LastBody(evs + [ev]) == LastBody(evs) && !IsFailure(ev)
    ensures IsDone(ev) ==>
      ItemsDone(evs + [ev]) == ItemsDone(evs) + if Get(ev, "item").Some? then [Get(ev, "item").value] else []
    ensures !IsDone(ev) ==> ItemsDone(evs + [ev]) == ItemsDone(evs)
    ensures IsEnd(ev) ==> LastBody(evs + [ev]) == Get(ev, "response") && !IsFailure(ev)
    ensures !IsEnd(ev) ==> LastBody(evs + [ev]) == LastBody(evs)
  {
    NotTwoKinds(ev);
    hide IsDone, IsEnd, IsFailure;
    var all := evs + [ev];
    assert all[..|all| - 1] == evs;
    assert ItemsDone(evs) + [] == ItemsDone(evs);
    assert forall x :: x in all <==> x in evs || x == ev;
  }

  lemma FirstFailure(parse: string -> Option<Json>, lines: seq<string>, i: nat, evs: seq<Json>, ev: Json)
    requires i < |lines| && evs == EventsOf(parse, lines[..i]) && NoFailure(evs)
    requires EventOf(parse, lines[i]) == Some(ev) && IsFailure(ev)
    ensures var all := EventsOf(parse, lines);
      !NoFailure(all) && |evs| < |all| && all[|evs|] == ev && all[..|evs|] == evs
  {
    hide EventsOf, EventOf, IsFailure;
    EventsSnoc(parse, lines, i);
    EventsGrow(parse, lines, i + 1);
    var all := EventsOf(parse, lines);
    assert evs + [ev] == all[..|evs| + 1];
    assert all[|evs|] == (evs + [ev])[|evs|];
    assert all[|evs|] in all;
  }

  lemma {:induction false} EventsGrow(parse: string -> Option<Json>, lines: seq<string>, n: nat)
    requires n <= |lines|
    ensures EventsOf(parse, lines[..n]) <= EventsOf(parse, lines)
    decreases |lines|
  {
    hide EventOf;
    if n == |lines| {
      assert lines[..n] == lines;
    } else {
      assert lines[..|lines| - 1][..n] == lines[..n];
      EventsGrow(parse, lines[..|lines| - 1], n);
    }
  }

  /** Streamed items come back on the next turn in the order they were finished: the backend that leaves
      the terminal output empty loses nothing. */
  lemma StreamedItemsReplay(parse: string -> Option<Json>, show: Json -> string, evs: seq<Json>)
    requires Inverse(parse, show)
    requires LastBody(evs).Some? && OutputOf(LastBody(evs).value) == [] && StreamOutcome(parse, evs).Ok?
    ensures AllInputTokens(parse, ItemsFrom(show, [], StreamOutcome(parse, evs).value.content))
         == AllOutputTokens(parse, ItemsDone(evs))
  {
    hide ResponseOf, ItemsFrom, AllInputTokens, AllOutputTokens, ItemsDone, LastBody, OutputOf;
    FilledOutput(LastBody(evs).value, ItemsDone(evs));
    ReplayKeepsOrder(parse, show, Filled(LastBody(evs).value, ItemsDone(evs)).value);
  }
}
