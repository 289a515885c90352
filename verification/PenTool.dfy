/** The `agent` tool's `run` up to the point where the child runs (crates/harness/src/pen.rs), over the
    session and lane rows of one parent's children (crates/store/src/lib.rs). */
module PenTools {
  import opened Wrappers
  import opened Llm
  import opened Sessions
  import opened Pens

  datatype ToolError =
    | MissingPrompt
    | WorktreeNeedsWork
    | UnknownMode(mode: string)
    | StoreFailed
    | BudgetExhausted(used: nat)

  /** The children's rows. A session without its lane row is in `rows` but not in `lanes`. */
  class PenStore {
    var rows: map<string, Session>
    var lanes: set<string>
    const disk: nat -> bool
    var accesses: nat
    ghost var refusals: nat

    constructor (disk: nat -> bool)
      ensures rows == map[] && lanes == {} && refusals == 0
    {
      this.disk := disk;
      rows, lanes, accesses, refusals := map[], {}, 0, 0;
    }

    method Access() returns (ok: bool)
      modifies this`accesses, this`refusals
      ensures refusals == if ok then old(refusals) else old(refusals) + 1
    {
      ok := disk(accesses);
      accesses := accesses + 1;
      if !ok {
        refusals := refusals + 1;
      }
    }

    /** `get_session(id).is_ok()`: a read that fails looks like a missing row. */
    method Exists(id: string) returns (found: bool)
      modifies this`accesses, this`refusals
      ensures refusals >= old(refusals) && (found ==> id in rows)
      ensures refusals == old(refusals) ==> (found <==> id in rows)
    {
      var ok := Access();
      found := ok && id in rows;
    }

    method CountChildren() returns (r: Option<nat>)
      modifies this`accesses, this`refusals
      ensures refusals >= old(refusals) && (r.None? ==> refusals > old(refusals)) && (r.Some? ==> r.value == |rows|)
    {
      var ok := Access();
      r := if ok then Some(|rows|) else None;
    }

    /** `create_child_session`: the row of an existing child is returned as it is; otherwise the session
        row and then the lane row are inserted, each in a transaction of its own. */
    method CreateChildSession(id: string) returns (ok: bool)
      modifies this
      ensures refusals >= old(refusals) && (!ok ==> refusals > old(refusals))
      ensures rows == old(rows) || (id !in old(rows) && rows == old(rows)[id := EMPTY])
      ensures ok ==> id in rows
      ensures lanes == old(lanes) || (id !in old(rows) && rows != old(rows) && lanes == old(lanes) + {id})
      ensures refusals == old(refusals) && id !in old(rows) ==> rows != old(rows) && lanes == old(lanes) + {id}
    {
      var found := Exists(id);
      if found {
        return true;
      }
      ok := Access();
      if !ok || id in rows {
        return false;
      }
      rows := rows[id := EMPTY];
      ok := Access();
      if !ok {
        return;
      }
      lanes := lanes + {id};
      ok := Exists(id);
    }

    method LastRunOutcome(id: string) returns (r: Option<Option<Outcome>>)
      requires id in rows
      modifies this`accesses, this`refusals
      ensures refusals >= old(refusals) && (r.None? ==> refusals > old(refusals))
      ensures r.Some? ==> r.value == LastOutcome(rows[id].records)
    {
      var ok := Access();
      if !ok {
        return None;
      }
      var rs := rows[id].records;
      var k := |rs|;
      assert rs[..k] == rs;
      while k > 0
        invariant k <= |rs| && LastOutcome(rs) == LastOutcome(rs[..k])
      {
        if rs[k - 1].payload.OperationFinished? {
          return Some(Some(rs[k - 1].payload.outcome));
        }
        assert rs[..k][..k - 1] == rs[..k - 1];
        k := k - 1;
      }
      r := Some(None);
    }

    /** `path_messages`, and the last assistant message's text in it. */
    method RecordedAnswer(id: string) returns (r: Option<string>)
      requires id in rows
      modifies this`accesses, this`refusals
      ensures refusals >= old(refusals) && (r.None? ==> refusals > old(refusals))
      ensures r.Some? ==> r.value == LastAnswer(Transcript(rows[id]))
    {
      var ok := Access();
      if !ok {
        return None;
      }
      var ms := Transcript(rows[id]);
      var k := |ms|;
      assert ms[..k] == ms;
      while k > 0
        invariant k <= |ms| && LastAnswer(ms) == LastAnswer(ms[..k])
      {
        if ms[k - 1].role.Assistant? {
          return Some(TextOf(ms[k - 1]));
        }
        assert ms[..k][..k - 1] == ms[..k - 1];
        k := k - 1;
      }
      r := Some("");
    }
  }

  /** The errors a call can make in its input, in the order they are noticed. */
  function BadInput(prompt: Option<string>, mode: Option<string>, worktree: bool): Option<ToolError> {
    var m := if mode.Some? then mode.value else "inspect";
    if prompt.None? then Some(MissingPrompt)
    else if worktree && m != "work" then Some(WorktreeNeedsWork)
    else if m != "inspect" && m != "work" then Some(UnknownMode(m))
    else None
  }

  /** What a reply of the decision looks like to the caller. */
  function AsResult(r: Reply): Result<Reply, ToolError> {
    if r.Exhausted? then Err(BudgetExhausted(r.used)) else Ok(r)
  }

  /** The rows, lanes and registry that `Run` leaves when the disk is sound. */
  function RowsAfter(reply: Reply, id: string, rows: map<string, Session>): map<string, Session> {
    if reply.Runs? && id !in rows then rows[id := EMPTY] else rows
  }

  function LanesAfter(reply: Reply, id: string, rows: map<string, Session>, lanes: set<string>): set<string> {
    if reply.Runs? && id !in rows then lanes + {id} else lanes
  }

  function CancelsAfter(reply: Reply, id: string, background: bool, cancels: set<string>): set<string> {
    if reply.Runs? && background then cancels + {id} else cancels
  }

  /** The store and the registry are those of the family. */
  ghost predicate Shows(max: nat, rows: map<string, Session>, lanes: set<string>, cancels: set<string>, f: Family) {
    && f.max == max && rows.Keys == f.children.Keys && cancels <= rows.Keys
    && forall id :: id in rows ==>
         && rows[id] == f.children[id].y.s
         && (id in lanes <==> f.children[id].lane) && (id in cancels <==> f.children[id].flying)
  }

  /** The tool's decision is the delegation machine's spawn: the same reply, and rows, lanes and registry
      that show the family after it. */
  lemma RunIsSpawn(idOf: string -> string, max: nat, rows: map<string, Session>, lanes: set<string>, cancels: set<string>,
                   f: Family, call: string, background: bool, p: nat)
    requires Shows(max, rows, lanes, cancels, f)
    ensures var id := idOf(call);
      var reply := Decide(id in cancels, id in rows, |rows|, max, if id in rows then rows[id] else EMPTY);
      && reply == ReplyTo(f, id) && Step(idOf, f, Spawn(call, background, p)).Some?
      && Shows(max, RowsAfter(reply, id, rows), LanesAfter(reply, id, rows, lanes),
               CancelsAfter(reply, id, background, cancels), Step(idOf, f, Spawn(call, background, p)).value)
  {
    hide LastOutcome, LastAnswer, Transcript, Enter, Shows, Decide;
    SameReply(max, rows, lanes, cancels, f, idOf(call));
    var id := idOf(call);
    if ReplyTo(f, id) == Runs {
      var c := if id in f.children then f.children[id] else NewChild(true);
      var d := if background then c.(waiting := true, flying := true) else Enter(c, p, false);
      EnterShows(c, p);
      ShowsSpawned(max, rows, lanes, cancels, f, id, background, d);
    }
  }

  lemma SameReply(max: nat, rows: map<string, Session>, lanes: set<string>, cancels: set<string>, f: Family, id: string)
    requires Shows(max, rows, lanes, cancels, f)
    ensures Decide(id in cancels, id in rows, |rows|, max, if id in rows then rows[id] else EMPTY) == ReplyTo(f, id)
  {
    hide LastOutcome, LastAnswer, Transcript, Decide;
    assert |rows| == |rows.Keys| && |f.children| == |f.children.Keys|;
  }

  lemma ShowsSpawned(max: nat, rows: map<string, Session>, lanes: set<string>, cancels: set<string>, f: Family, id: string,
                     background: bool, d: Child)
    requires Shows(max, rows, lanes, cancels, f)
    requires var c := if id in f.children then f.children[id] else NewChild(true);
      d.y.s == c.y.s && d.lane == c.lane && d.flying == (c.flying || background)
    ensures Shows(max, RowsAfter(Runs, id, rows), LanesAfter(Runs, id, rows, lanes),
                  CancelsAfter(Runs, id, background, cancels), WithChild(f, id, d))
  {
  }

  lemma EnterShows(c: Child, p: nat)
    ensures var d := Enter(c, p, false);
      d.y.s == c.y.s && d.lane == c.lane && d.flying == c.flying
  {
  }

  class PenTool {
    const idOf: string -> string
    const max: nat
    const store: PenStore
    var cancels: set<string>

    constructor (idOf: string -> string, max: nat, store: PenStore)
      ensures this.idOf == idOf && this.max == max && this.store == store && cancels == {}
    {
      this.idOf, this.max, this.store, cancels := idOf, max, store, {};
    }

    /** `run`. Whatever the disk does, no child row is lost or altered and the budget holds. With a sound
        disk the reply and the rows are exactly those of the delegation machine's spawn. */
    method Run(call: string, prompt: Option<string>, mode: Option<string>, worktree: bool, background: bool)
      returns (r: Result<Reply, ToolError>)
      modifies this, store
      ensures store.rows == old(store.rows)
              || (idOf(call) !in old(store.rows) && |old(store.rows)| < max
                  && store.rows == old(store.rows)[idOf(call) := EMPTY])
      ensures BadInput(prompt, mode, worktree).Some? ==>
        r == Err(BadInput(prompt, mode, worktree).value) && store.rows == old(store.rows) && cancels == old(cancels)
      ensures r == Err(MissingPrompt) <==> prompt.None?
      ensures r == Err(WorktreeNeedsWork) <==> prompt.Some? && worktree && mode != Some("work")
      ensures forall m :: r == Err(UnknownMode(m)) <==>
                prompt.Some? && mode == Some(m) && m != "inspect" && m != "work" && !worktree
      ensures r == Err(StoreFailed) ==> store.refusals > old(store.refusals)
      ensures prompt.Some? && (mode == Some("work") || (!worktree && (mode.None? || mode == Some("inspect"))))
              && store.refusals == old(store.refusals) ==>
        var id, rows := idOf(call), old(store.rows);
        && (forall n :: r == Err(BudgetExhausted(n)) <==>
              id !in old(cancels) && id !in rows && |rows| >= max && n == |rows|)
        && (r == Ok(AlreadyRunning) <==> id in old(cancels))
        && (id !in old(cancels) && id !in rows && |rows| < max ==>
              && r == Ok(Runs) && store.rows == rows[id := EMPTY] && store.lanes == old(store.lanes) + {id}
              && cancels == (if background then old(cancels) + {id} else old(cancels)))
        && (id !in old(cancels) && id in rows && EndedCompleted(rows[id].records) ==>
              && r.Ok? && r.value.Reattached? && store.rows == rows && cancels == old(cancels)
              && forall i: nat :: SpokenLastAt(Transcript(rows[id]), i) ==> r.value.answer == TextOf(Transcript(rows[id])[i]))
        && (id !in old(cancels) && id in rows && !EndedCompleted(rows[id].records) ==>
              && r == Ok(Runs) && store.rows == rows
              && cancels == (if background then old(cancels) + {id} else old(cancels)))
      ensures BadInput(prompt, mode, worktree).None? && store.refusals == old(store.refusals) ==>
        var id, rows := idOf(call), old(store.rows);
        var reply := Decide(id in old(cancels), id in rows, |rows|, max, if id in rows then rows[id] else EMPTY);
        && r == AsResult(reply)
        && store.rows == RowsAfter(reply, id, rows) && store.lanes == LanesAfter(reply, id, rows, old(store.lanes))
        && cancels == CancelsAfter(reply, id, background, old(cancels))
    {
      hide LastOutcome, LastAnswer, Transcript, EndedCompleted, SpokenLastAt, TextOf;
      if idOf(call) in store.rows {
        CompletedMeaning(store.rows[idOf(call)].records);
        LastAnswerMeaning(Transcript(store.rows[idOf(call)]));
      }
      var bad := BadInput(prompt, mode, worktree);
      if bad.Some? {
        return Err(bad.value);
      }
      var id := idOf(call);
      if id in cancels {
        return Ok(AlreadyRunning);
      }
      var known := store.Exists(id);
      if !known {
        var children := store.CountChildren();
        if children.None? {
          return Err(StoreFailed);
        }
        if children.value >= max {
          return Err(BudgetExhausted(children.value));
        }
      }
      var created := store.CreateChildSession(id);
      if !created {
        return Err(StoreFailed);
      }
      if known {
        var outcome := store.LastRunOutcome(id);
        if outcome.None? {
          return Err(StoreFailed);
        }
        if outcome.value == Some(Completed) {
          var answer := store.RecordedAnswer(id);
          if answer.None? {
            return Err(StoreFailed);
          }
          return Ok(Reattached(answer.value));
        }
      }
      if background {
        cancels := cancels + {id};
      }
      r := Ok(Runs);
    }
  }
}
