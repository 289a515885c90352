/** The migration of flat message lists to entry chains (crates/store/src/lib.rs
    `migrate_messages_to_entries`), inside one transaction over all sessions. */
module Migrations {
  import opened Wrappers
  import opened Llm
  import opened Ids
  import opened Sessions

  /** A row of the old table, in `idx` order; the content is None when it is not JSON. */
  datatype OldRow = OldRow(role: string, content: Option<seq<ContentBlock>>)

  /** Anything but "user" counts as the assistant. */
  function Migrated(row: OldRow): Message
    requires row.content.Some?
  {
    Message(if row.role == "user" then User else Assistant, row.content.value)
  }

  function AllMigrated(rows: seq<OldRow>): (ms: seq<Message>)
    requires Readable(rows)
    ensures |ms| == |rows| && forall i :: 0 <= i < |rows| ==> ms[i] == Migrated(rows[i])
    ensures forall i :: 0 <= i < |rows| ==>
      ms[i].content == rows[i].content.value && (ms[i].role.User? <==> rows[i].role == "user")
  {
    seq(|rows|, i requires 0 <= i < |rows| => Migrated(rows[i]))
  }

  predicate Readable(rows: seq<OldRow>) {
    forall i :: 0 <= i < |rows| ==> rows[i].content.Some?
  }

  /** A session reads back as this message list: its rows form one chain, the walk from the leaf succeeds
      and yields every entry in order, and no run is open. */
  ghost predicate ReadsAs(s: Session, ms: seq<Message>) {
    && Chain(s) && Transcript(s) == ms
    && Path(s) == Some(s.entries)
    && Reduce(s) == Ok(None)
  }

  // One more entry at the end of the chain.
  lemma OneMore(s: Session, n: nat, m: Message)
    requires Chain(s) && s.records == [] && s.marker == None && forall e :: e in s.entries ==> Base(e.id) < n
    ensures var entries := s.entries + [Entry(Uuid(n), s.leaf, s.nextSeq, m)];
      && Chain(Session(entries, [], Some(Uuid(n)), None, s.nextSeq + 1))
      && MessagesOf(entries) == MessagesOf(s.entries) + [m]
      && forall e :: e in entries ==> Base(e.id) < n + 1
  {
    hide Chain;
    assert !HasEntry(s.entries, Uuid(n));
    CommitChain(s, PutEntry(Uuid(n), m));
    var entries := s.entries + [Entry(Uuid(n), s.leaf, s.nextSeq, m)];
    assert entries[..|s.entries|] == s.entries;
  }

  lemma Finished(s: Session, rows: seq<OldRow>)
    requires Chain(s) && s.records == [] && Readable(rows) && MessagesOf(s.entries) == AllMigrated(rows)
    ensures ReadsAs(s, AllMigrated(rows))
  {
    PathIsEntries(s);
  }

  lemma MigratedSnoc(rows: seq<OldRow>, row: OldRow)
    requires Readable(rows) && row.content.Some?
    ensures Readable(rows + [row]) && AllMigrated(rows + [row]) == AllMigrated(rows) + [Migrated(row)]
  {
    hide Migrated;
  }

  lemma Beginning(rows: seq<OldRow>)
    ensures Chain(Session([], [], None, None, 1)) && Readable(rows[..0]) && MessagesOf([]) == AllMigrated(rows[..0])
  {
    EmptyChain();
  }

  lemma Unreadable(rows: seq<OldRow>, i: nat)
    requires i < |rows| && rows[i].content.None?
    ensures !Readable(rows)
  {
  }

  /** One session: a chain of entries with fresh ids, and the lane's leaf on the last. */
  method MigrateSession(rows: seq<OldRow>, supply: nat) returns (r: Option<Session>, uuids: nat)
    ensures r.Some? <==> Readable(rows)
    ensures r.Some? ==> ReadsAs(r.value, AllMigrated(rows))
    ensures r.Some? ==> |Transcript(r.value)| == |rows| && forall i :: 0 <= i < |rows| ==>
      Transcript(r.value)[i].content == rows[i].content.value
      && (Transcript(r.value)[i].role.User? <==> rows[i].role == "user")
    ensures uuids >= supply
  {
    hide Chain, MessagesOf, AllMigrated, Migrated, ReadsAs, Readable, Base;
    var entries: seq<Entry> := [];
    var parent: Option<Id> := None;
    var nextSeq: nat := 1;
    uuids := supply;
    Beginning(rows);
    for i := 0 to |rows|
      invariant uuids >= supply && Readable(rows[..i])
      invariant Chain(Session(entries, [], parent, None, nextSeq))
      invariant forall e :: e in entries ==> Base(e.id) < uuids
      invariant MessagesOf(entries) == AllMigrated(rows[..i])
    {
      if rows[i].content.None? {
        Unreadable(rows, i);
        return None, uuids;
      }
      OneMore(Session(entries, [], parent, None, nextSeq), uuids, Migrated(rows[i]));
      MigratedSnoc(rows[..i], rows[i]);
      assert rows[..i + 1] == rows[..i] + [rows[i]];
      var id := Uuid(uuids);
      uuids := uuids + 1;
      entries := entries + [Entry(id, parent, nextSeq, Migrated(rows[i]))];
      nextSeq := nextSeq + 1;
      parent := Some(id);
    }
    assert rows[..|rows|] == rows;
    Finished(Session(entries, [], parent, None, nextSeq), rows);
    r := Some(Session(entries, [], parent, None, nextSeq));
  }

  /** All sessions or none: every migrated session's path is its old message list, in order. */
  method Migrate(sessions: seq<seq<OldRow>>) returns (r: Option<seq<Session>>)
    ensures r.Some? <==> forall k :: 0 <= k < |sessions| ==> Readable(sessions[k])
    ensures r.Some? ==>
      |r.value| == |sessions| && forall k :: 0 <= k < |sessions| ==> ReadsAs(r.value[k], AllMigrated(sessions[k]))
  {
    hide ReadsAs, Readable;
    var done: seq<Session> := [];
    var uuids := 0;
    for k := 0 to |sessions|
      invariant |done| == k
      invariant forall j :: 0 <= j < k ==> Readable(sessions[j]) && ReadsAs(done[j], AllMigrated(sessions[j]))
    {
      var s;
      s, uuids := MigrateSession(sessions[k], uuids);
      if s.None? {
        return None;
      }
      done := done + [s.value];
    }
    r := Some(done);
  }
}
