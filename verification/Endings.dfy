/** Runs that end badly without a crash: closed as failed, and so never recovered. */
module Endings {
  import opened Wrappers
  import opened Llm
  import opened Ids
  import opened Sessions
  import opened Recoveries
  import opened Protocols
  import opened Plays
  import opened Invariants
  import opened Safety
  import opened CrashSafety
  import opened Guarantees
  import T = Traces

  /** A fresh session with nothing in memory is where the protocol begins. */
  lemma FreshInv()
    ensures Inv(Config(EMPTY, Ready, [], 0, {}))
  {
    EmptyChain();
    var c := Config(EMPTY, Ready, [], 0, {});
    assert Durable(c.s, From(c), c.ran);
    assert Transcript(EMPTY) == c.memory + Gap(c.phase);
  }

  /** From any idle state: a run whose provider fails at its first request is closed as failed, leaves
      recovery nothing to do, and leaves the path ending on the prompt. */
  lemma FailedCallEndsOnPrompt(c: Config, run: nat, user: Message, id: nat) returns (d: Config)
    requires Inv(c) && c.phase.Ready? && user.role.User?
    requires Unseen(c.s, run)
    requires Unseen(Commit(Commit(c.s, PutRecord(Uuid(run), run, OperationStarted(c.s.leaf))), SetMarker(run)), id)
    ensures Play(Advance, c, [Start(run, user), Mark, Prompt(id), Step, Event.Finish(Failed), Unmark, Meta]) == Some(d)
    ensures Inv(d) && d.phase.Ready?
    ensures Transcript(d.s) == Transcript(c.s) + [user] && EndsOnUser(d.s)
    ensures Plan(d.s) == [] && Recovered(d.s) == d.s
  {
    hide Durable, PairedFrom, Unseen, Advance, Enabled, Reduce, CommitAll, Commit;
    assert NoneOpen(c.s.records) && Transcript(c.s) == c.memory + [] == c.memory;
    Idle(c.s);
    var c1 := T.CanStart(c, run, user, id);
    var c2 := T.CanStep(c1);
    MayFail(c2);
    d := T.CanFinish(c2, Failed);
    var es1, es2, es3 := [Start(run, user), Mark, Prompt(id)], [Step], [Event.Finish(Failed), Unmark, Meta];
    T.FollowsConcat(c, es1, c1, T.Log(c, es1), es2, c2, T.Log(c1, es2));
    T.FollowsConcat(c, es1 + es2, c2, T.Log(c, es1) + T.Log(c1, es2), es3, d, T.Log(c2, es3));
    var es := [Start(run, user), Mark, Prompt(id), Step, Event.Finish(Failed), Unmark, Meta];
    assert es1 + es2 + es3 == es;
    assert es[..|es|] == es;
    AlwaysInv(c, es, |es|);
    assert d.memory == c.memory + [user] && Transcript(d.s) == d.memory + [] == d.memory;
    LastOnPath(d.s, user);
    NoneOpenPlan(d.s);
    NothingToCommit(d.s);
  }

  lemma Idle(s: Session)
    requires NoneOpen(s.records)
    ensures Reduce(s) == Ok(None)
  {
    ReduceMeaning(s);
  }

  lemma MayFail(c: Config)
    requires c.phase.Calling?
    ensures Enabled(c, Event.Finish(Failed)) && NextMemory(c, Event.Finish(Failed)) == c.memory
  {
  }

  lemma LastOnPath(s: Session, m: Message)
    requires |Transcript(s)| > 0 && Transcript(s)[|Transcript(s)| - 1] == m && m.role.User?
    ensures EndsOnUser(s)
  {
  }

  lemma NothingToCommit(s: Session)
    requires Plan(s) == []
    ensures Recovered(s) == s
  {
  }

  lemma FirstIds()
    ensures Unseen(EMPTY, 0)
    ensures Unseen(Commit(Commit(EMPTY, PutRecord(Uuid(0), 0, OperationStarted(None))), SetMarker(0)), 1)
  {
    var s := Commit(Commit(EMPTY, PutRecord(Uuid(0), 0, OperationStarted(None))), SetMarker(0));
    assert s.records == [Record(Uuid(0), 0, 1, OperationStarted(None))] && s.entries == [];
  }

  lemma NothingSaid()
    ensures Transcript(EMPTY) == []
  {
  }

  /** The first such run there can be: a new session, its first prompt, and a provider that fails. */
  lemma FailedRunEndsOnPrompt(user: Message) returns (d: Config)
    requires user.role.User?
    ensures Play(Advance, Config(EMPTY, Ready, [], 0, {}),
                 [Start(0, user), Mark, Prompt(1), Step, Event.Finish(Failed), Unmark, Meta]) == Some(d)
    ensures Transcript(Recovered(d.s)) == [user] && EndsOnUser(Recovered(d.s))
  {
    hide Inv, Advance, Commit, Unseen, Recovered, Transcript, EndsOnUser, Plan;
    FreshInv();
    FirstIds();
    d := FailedCallEndsOnPrompt(Config(EMPTY, Ready, [], 0, {}), 0, user, 1);
    NothingSaid();
    assert [] + [user] == [user];
  }
}
