/**
 * Writes to shared messages. A message may belong to the histories of many
 * sessions, so every write first checks that this runtime may write each of them.
 */
module References {
  import opened Types
  import opened Database
  import opened StreamDeltas
  import opened MessageGraph

  /** Sessions that a change to `id` concerns. */
  function MessageSessions(db: Db, id: MessageId, associated: Option<SessionId>): (r: set<SessionId>) {
    set s | s in db.sessions && (InHistory(db, s, id) || associated == Some(s) || SessionOf(db.records, id) == Some(s))
  }

  predicate Fenced(db: Db, tokens: Tokens, sessions: set<SessionId>) {
    exists s | s in sessions :: AssertOwner(db.sessions, tokens, s).Err?
  }

  /** Checks the message, or its nearest ancestor that any session refers to. */
  function Owners(db: Db, tokens: Tokens, cursor: MessageId, associated: Option<SessionId>, visited: set<MessageId>)
    : (r: Result<set<SessionId>, Error>)
    decreases db.records.Keys - visited
  {
    var own := SessionOf(db.records, cursor);
    if cursor in visited then Err(ParentCycle(cursor)) else
    var _ :- if associated.Some? then AssertOwner(db.sessions, tokens, associated.value) else Ok(());
    var _ :- if own.Some? && own != associated then AssertOwner(db.sessions, tokens, own.value) else Ok(());
    var sessions := MessageSessions(db, cursor, associated);
    if Fenced(db, tokens, sessions) then Err(OwnedByAnother)
    else if sessions != {} then Ok(sessions)
    else if cursor !in db.records || db.records[cursor].message.parent.None? then Ok({})
    else Owners(db, tokens, db.records[cursor].message.parent.value, None, visited + {cursor})
  }

  /** The loop that computes it, with a moving cursor and a growing visited set. */
  method AssertMessageOwners(db: Db, tokens: Tokens, id: MessageId, associatedSession: Option<SessionId>)
    returns (r: Result<set<SessionId>, Error>)
    ensures r == Owners(db, tokens, id, associatedSession, {})
  {
    var cursor, associated := id, associatedSession;
    var visited: set<MessageId> := {};
    while true
      invariant Owners(db, tokens, id, associatedSession, {}) == Owners(db, tokens, cursor, associated, visited)
      decreases db.records.Keys - visited
    {
      if cursor in visited {
        return Err(ParentCycle(cursor));
      }
      if associated.Some? {
        var owner := AssertOwner(db.sessions, tokens, associated.value);
        if owner.Err? {
          return Err(owner.error);
        }
      }
      var own := SessionOf(db.records, cursor);
      if own.Some? && own != associated {
        var owner := AssertOwner(db.sessions, tokens, own.value);
        if owner.Err? {
          return Err(owner.error);
        }
      }
      var sessions := MessageSessions(db, cursor, associated);
      var todo := sessions;
      while todo != {}
        invariant todo <= sessions && !Fenced(db, tokens, sessions - todo)
        decreases todo
      {
        var s :| s in todo;
        if AssertOwner(db.sessions, tokens, s).Err? {
          return Err(OwnedByAnother);
        }
        todo := todo - {s};
      }
      assert sessions - todo == sessions;
      if sessions != {} {
        return Ok(sessions);
      }
      if cursor !in db.records || db.records[cursor].message.parent.None? {
        return Ok({});
      }
      visited := visited + {cursor};
      cursor := db.records[cursor].message.parent.value;
      associated := None;
    }
  }

  /** `s` has the message in its history or had it created for it. */
  predicate Refers(db: Db, s: SessionId, id: MessageId) {
    s in db.sessions && (InHistory(db, s, id) || (id in db.records && db.records[id].session == Some(s)))
  }

  /** From a message up to the nearest one that a session refers to, or to the end if there is none. */
  ghost predicate ToNearest(db: Db, path: seq<MessageId>, associated: Option<SessionId>) {
    && path != [] && (forall i, j | 0 <= i < j < |path| :: path[i] != path[j])
    && (forall i | 0 <= i < |path| - 1 ::
          && path[i] in db.records && db.records[path[i]].message.parent == Some(path[i + 1])
          && forall s :: !Refers(db, s, path[i]))
    && (|path| > 1 ==> associated.None? || associated.value !in db.sessions)
    && var last := path[|path| - 1];
       || last !in db.records || db.records[last].message.parent.None?
       || (exists s :: Refers(db, s, last)) || (associated.Some? && associated.value in db.sessions)
  }

  /** Who has a say: the sessions referring to that ancestor, and those the messages on the way were created for. */
  ghost predicate HasSay(db: Db, path: seq<MessageId>, associated: Option<SessionId>, s: SessionId)
    requires path != []
  {
    || associated == Some(s) || Refers(db, s, path[|path| - 1])
    || exists i | 0 <= i < |path| :: path[i] in db.records && db.records[path[i]].session == Some(s)
  }

  lemma {:induction false} OwnersNearest(db: Db, tokens: Tokens, path: seq<MessageId>, associated: Option<SessionId>,
                                         visited: set<MessageId>)
    requires ToNearest(db, path, associated) && forall i | 0 <= i < |path| :: path[i] !in visited
    ensures
      var r := Owners(db, tokens, path[0], associated, visited);
      && (r.Ok? <==> forall s | HasSay(db, path, associated, s) :: AssertOwner(db.sessions, tokens, s).Ok?)
      && (r.Ok? ==> forall s :: s in r.value <==>
            s in db.sessions && (associated == Some(s) || Refers(db, s, path[|path| - 1])))
    decreases |path|
  {
    if |path| > 1 {
      var rest := path[1..];
      assert rest[0] == path[1] && rest[|rest| - 1] == path[|path| - 1];
      OwnersAbove(db, tokens, path[0], associated, visited);
      assert ToNearest(db, rest, None);
      OwnersNearest(db, tokens, rest, None, visited + {path[0]});
      forall s
        ensures HasSay(db, path, associated, s) <==>
                associated == Some(s) || SessionOf(db.records, path[0]) == Some(s) || HasSay(db, rest, None, s)
      {
        SayGrows(db, path, associated, s);
      }
    } else {
      OwnersHere(db, tokens, path[0], associated, visited);
      forall s
        ensures HasSay(db, path, associated, s) <==>
                associated == Some(s) || SessionOf(db.records, path[0]) == Some(s) || Refers(db, s, path[0])
      {
        if SessionOf(db.records, path[0]) == Some(s) {
          assert path[0] in db.records && db.records[path[0]].session == Some(s);
        }
      }
    }
  }

  /** A message that some session refers to, or that nothing is above. */
  lemma OwnersHere(db: Db, tokens: Tokens, id: MessageId, associated: Option<SessionId>, visited: set<MessageId>)
    requires id !in visited
    requires || id !in db.records || db.records[id].message.parent.None?
             || (exists s :: Refers(db, s, id)) || (associated.Some? && associated.value in db.sessions)
    ensures
      var r := Owners(db, tokens, id, associated, visited);
      && (r.Ok? <==> forall s | associated == Some(s) || SessionOf(db.records, id) == Some(s) || Refers(db, s, id) ::
            AssertOwner(db.sessions, tokens, s).Ok?)
      && (r.Ok? ==> forall s :: s in r.value <==> s in db.sessions && (associated == Some(s) || Refers(db, s, id)))
  {
    var sessions := MessageSessions(db, id, associated);
    assert forall s :: s in sessions <==> s in db.sessions && (associated == Some(s) || Refers(db, s, id));
  }

  /** A message that no session refers to passes the question on to its parent. */
  lemma OwnersAbove(db: Db, tokens: Tokens, id: MessageId, associated: Option<SessionId>, visited: set<MessageId>)
    requires id !in visited && id in db.records && db.records[id].message.parent.Some?
    requires (forall s :: !Refers(db, s, id)) && (associated.None? || associated.value !in db.sessions)
    ensures
      var r := Owners(db, tokens, id, associated, visited);
      var above := Owners(db, tokens, db.records[id].message.parent.value, None, visited + {id});
      && (r.Ok? <==>
            && (forall s | associated == Some(s) || SessionOf(db.records, id) == Some(s) ::
                  AssertOwner(db.sessions, tokens, s).Ok?)
            && above.Ok?)
      && (r.Ok? ==> r == above)
  {
    var sessions := MessageSessions(db, id, associated);
    assert forall s :: s !in sessions || Refers(db, s, id);
    assert sessions == {};
  }

  lemma SayGrows(db: Db, path: seq<MessageId>, associated: Option<SessionId>, s: SessionId)
    requires |path| > 1
    ensures HasSay(db, path, associated, s) <==>
            associated == Some(s) || SessionOf(db.records, path[0]) == Some(s) || HasSay(db, path[1..], None, s)
  {
    var rest := path[1..];
    if i :| 0 <= i < |path| && path[i] in db.records && db.records[path[i]].session == Some(s) {
      if i > 0 {
        assert rest[i - 1] == path[i];
      }
    }
    if i :| 0 <= i < |rest| && rest[i] in db.records && db.records[rest[i]].session == Some(s) {
      assert path[i + 1] == rest[i];
    }
  }

  function Members(s: Option<SessionId>): (r: set<SessionId>) {
    if s.Some? then {s.value} else {}
  }

  function WriteMessageRecord(db: Db, tokens: Tokens, associated: Option<SessionId>, message: Message)
    : (r: Result<Db, Error>)
  {
    var owners :- Owners(db, tokens, message.id, associated, {});
    var kept := SessionOf(db.records, message.id);
    Ok(Db(BumpAll(db.sessions, owners + Members(associated)),
          db.records[message.id := Record(if kept.Some? then kept else associated, message)],
          db.logs - {message.id},
          db.queue))
  }

  function DeleteMessageRecord(db: Db, tokens: Tokens, id: MessageId): (r: Result<Db, Error>) {
    if id !in db.records then Ok(db) else
    var owners :- Owners(db, tokens, id, db.records[id].session, {});
    Ok(Db(BumpAll(db.sessions, owners), db.records - {id}, db.logs - {id}, db.queue))
  }

  /** `MessageStore::save`. */
  function SaveMessage(db: Db, tokens: Tokens, message: Message): (r: Result<Db, Error>) {
    var session := SessionOf(db.records, message.id);
    if (session.None? || session.value !in db.sessions) && message.parent.Some? then
      var _ :- Owners(db, tokens, message.parent.value, None, {});
      WriteMessageRecord(db, tokens,
                         if session.None? then SessionOf(db.records, message.parent.value) else session, message)
    else WriteMessageRecord(db, tokens, session, message)
  }

  /** One revision for the session of the record, then one for every other owner. */
  method BumpOwners(before: Sessions, session: Option<SessionId>, owners: set<SessionId>) returns (sessions: Sessions)
    ensures sessions == BumpAll(before, owners + Members(session))
  {
    sessions := before;
    if session.Some? {
      sessions := BumpRevision(sessions, session.value);
    }
    var todo := owners - Members(session);
    ghost var done := Members(session);
    while todo != {}
      invariant todo !! done && todo + done == owners + Members(session)
      invariant sessions == BumpAll(before, done)
      decreases todo
    {
      var s :| s in todo;
      sessions := BumpRevision(sessions, s);
      todo, done := todo - {s}, done + {s};
    }
    assert done == owners + Members(session);
  }

  method Save(p: Process, message: Message) returns (r: Result<(), Error>)
    modifies p.shared
    ensures match SaveMessage(old(p.shared.db), p.tokens, message)
            case Ok(db) => r == Ok(()) && p.shared.db == db
            case Err(e) => r == Err(e) && p.shared.db == old(p.shared.db)
  {
    var db := p.shared.db;
    var session := SessionOf(db.records, message.id);
    var associatedSessionExists := session.Some? && session.value in db.sessions;
    if !associatedSessionExists && message.parent.Some? {
      var parentOwners := AssertMessageOwners(db, p.tokens, message.parent.value, None);
      if parentOwners.Err? {
        return Err(parentOwners.error);
      }
      if session.None? {
        session := SessionOf(db.records, message.parent.value);
      }
    }
    var owners := AssertMessageOwners(db, p.tokens, message.id, session);
    if owners.Err? {
      return Err(owners.error);
    }
    var kept := SessionOf(db.records, message.id);
    var record := Record(if kept.Some? then kept else session, message);
    var sessions := BumpOwners(db.sessions, session, owners.value);
    p.shared.db := Db(sessions, db.records[message.id := record], db.logs - {message.id}, db.queue);
    r := Ok(());
  }

  /** What a committed save changes. */
  lemma SaveShape(at: Db, tokens: Tokens, message: Message) returns (bumped: set<SessionId>, session: Option<SessionId>)
    requires SaveMessage(at, tokens, message).Ok?
    ensures SaveMessage(at, tokens, message).value
         == Db(BumpAll(at.sessions, bumped), at.records[message.id := Record(session, message)], at.logs - {message.id},
               at.queue)
  {
    var db' := SaveMessage(at, tokens, message).value;
    session := db'.records[message.id].session;
    var kept := SessionOf(at.records, message.id);
    var associated :=
      if kept.None? && message.parent.Some? then SessionOf(at.records, message.parent.value) else kept;
    bumped := Owners(at, tokens, message.id, associated, {}).value + Members(associated);
  }

  /** Where a saved message is filed: where it was, or with its parent. */
  function Filing(db: Db, message: Message): (session: Option<SessionId>) {
    if message.id in db.records && db.records[message.id].session.Some? then db.records[message.id].session
    else if message.parent.Some? && message.parent.value in db.records then db.records[message.parent.value].session
    else None
  }

  /** A committed save leaves this message, filed so and with an empty log, and every other one as it was. */
  lemma SaveFiles(db: Db, tokens: Tokens, message: Message)
    requires SaveMessage(db, tokens, message).Ok?
    ensures
      var db' := SaveMessage(db, tokens, message).value;
      && message.id in db'.records && db'.records[message.id].message == message
      && db'.records[message.id].session == Filing(db, message)
      && db'.records - {message.id} == db.records - {message.id}
      && db'.logs == db.logs - {message.id} && db'.queue == db.queue && db'.sessions.Keys == db.sessions.Keys
  {
    var bumped, session := SaveShape(db, tokens, message);
  }

  function Revised(row: SessionRow): (r: SessionRow) {
    row.(revision := row.revision + 1)
  }

  lemma OwnersBumped(db: Db, tokens: Tokens, id: MessageId, associated: Option<SessionId>)
    requires Owners(db, tokens, id, associated, {}).Ok?
    ensures
      var bumped := Owners(db, tokens, id, associated, {}).value + Members(associated);
      && (forall s | s in bumped || associated == Some(s) :: AssertOwner(db.sessions, tokens, s).Ok?)
      && (forall s | s in db.sessions && (InHistory(db, s, id) || associated == Some(s)) :: s in bumped)
  {
    var owners := Owners(db, tokens, id, associated, {}).value;
    forall s | s in owners || associated == Some(s)
      ensures AssertOwner(db.sessions, tokens, s).Ok?
    {
      OwnersAreOwned(db, tokens, id, associated, {}, s);
    }
    forall s | s in db.sessions && InHistory(db, s, id)
      ensures s in owners
    {
      OwnersCoverForks(db, tokens, id, associated, s);
    }
  }

  /**
   * A save is allowed exactly when this runtime may write every session with a say in the message, and in its
   * parent too if the message is not filed under a session that exists.
   */
  lemma SaveAllowed(db: Db, tokens: Tokens, message: Message, path: seq<MessageId>, above: seq<MessageId>)
    requires var filed := SessionOf(db.records, message.id);
             var associated := if filed.None? && message.parent.Some?
                               then SessionOf(db.records, message.parent.value) else filed;
             ToNearest(db, path, associated) && path[0] == message.id
    requires message.parent.Some? ==> ToNearest(db, above, None) && above[0] == message.parent.value
    ensures
      var filed := SessionOf(db.records, message.id);
      var associated := if filed.None? && message.parent.Some?
                        then SessionOf(db.records, message.parent.value) else filed;
      SaveMessage(db, tokens, message).Ok? <==>
        && (forall s | HasSay(db, path, associated, s) :: AssertOwner(db.sessions, tokens, s).Ok?)
        && ((filed.None? || filed.value !in db.sessions) && message.parent.Some? ==>
              forall s | HasSay(db, above, None, s) :: AssertOwner(db.sessions, tokens, s).Ok?)
  {
    var filed := SessionOf(db.records, message.id);
    var associated := if filed.None? && message.parent.Some?
                      then SessionOf(db.records, message.parent.value) else filed;
    OwnersNearest(db, tokens, path, associated, {});
    if message.parent.Some? {
      OwnersNearest(db, tokens, above, None, {});
    }
  }

  /** `append_stream_deltas`: numbered deltas for a message of a session this runtime may write. */
  function AppendDeltas(db: Db, tokens: Tokens, id: MessageId, first: nat, deltas: seq<StreamDelta>)
    : (r: Result<Db, Error>)
  {
    var session := SessionOf(db.records, id);
    if session.None? then Err(UnlinkedMessage) else
    var _ :- AssertOwner(db.sessions, tokens, session.value);
    if deltas != [] && first + |deltas| - 1 > I64_MAX then Err(SequenceTooLarge)
    else Ok(db.(sessions := BumpRevision(db.sessions, session.value),
                logs := db.logs[id := InsertBatch(LogOf(db, id), first, deltas)]))
  }

  /**
   * The numbered deltas joined the log of the message, rows already there kept; the session the message was
   * created for got a new revision, and nothing else changed.
   */
  ghost predicate Streamed(db: Db, db': Db, id: MessageId, first: nat, deltas: seq<StreamDelta>)
    requires id in db.records && db.records[id].session.Some?
  {
    var s := db.records[id].session.value;
    && db'.records == db.records && db'.queue == db.queue && db'.logs - {id} == db.logs - {id} && id in db'.logs
    && (forall k: nat ::
          var rows, rows' := LogOf(db, id).rows, db'.logs[id].rows;
          && (k in rows' <==> k in rows || first <= k < first + |deltas|)
          && (k in rows ==> rows'[k] == rows[k])
          && (k !in rows && k in rows' ==> rows'[k] == deltas[k - first]))
    && db'.sessions.Keys == db.sessions.Keys && db'.sessions - {s} == db.sessions - {s}
    && (s in db.sessions ==> db'.sessions[s] == db.sessions[s].(revision := db.sessions[s].revision + 1))
  }

  lemma StreamedRows(db: Db, tokens: Tokens, id: MessageId, first: nat, deltas: seq<StreamDelta>)
    requires AppendDeltas(db, tokens, id, first, deltas).Ok?
    ensures Streamed(db, AppendDeltas(db, tokens, id, first, deltas).value, id, first, deltas)
  {
    forall k: nat
      ensures
        var rows, rows' := LogOf(db, id).rows, InsertBatch(LogOf(db, id), first, deltas).rows;
        && (k in rows' <==> k in rows || first <= k < first + |deltas|)
        && (k in rows ==> rows'[k] == rows[k])
        && (k !in rows && k in rows' ==> rows'[k] == deltas[k - first])
    {
      BatchRows(LogOf(db, id), first, deltas, k);
    }
  }

  method AppendStreamDeltas(p: Process, id: MessageId, first: nat, deltas: seq<StreamDelta>)
    returns (r: Result<(), Error>)
    modifies p.shared
    ensures match AppendDeltas(old(p.shared.db), p.tokens, id, first, deltas)
            case Ok(db) => r == Ok(()) && p.shared.db == db
            case Err(e) => r == Err(e) && p.shared.db == old(p.shared.db)
    ensures r.Ok? <==>
              && id in old(p.shared.db.records) && old(p.shared.db.records)[id].session.Some?
              && AssertOwner(old(p.shared.db.sessions), p.tokens, old(p.shared.db.records)[id].session.value).Ok?
              && (deltas == [] || first + |deltas| - 1 <= I64_MAX)
    ensures r.Ok? ==> Streamed(old(p.shared.db), p.shared.db, id, first, deltas)
  {
    var db := p.shared.db;
    var session := SessionOf(db.records, id);
    if session.None? {
      return Err(UnlinkedMessage);
    }
    var owner := AssertOwner(db.sessions, p.tokens, session.value);
    if owner.Err? {
      return Err(owner.error);
    }
    var log := LogOf(db, id);
    for i := 0 to |deltas|
      invariant p.shared.db == db && (i > 0 ==> first + i - 1 <= I64_MAX)
      invariant InsertBatch(LogOf(db, id), first, deltas) == InsertBatch(log, first + i, deltas[i..])
    {
      if first + i > I64_MAX {
        return Err(SequenceTooLarge);
      }
      assert deltas[i..][1..] == deltas[i + 1..];
      log := Insert(log, first + i, deltas[i]);
    }
    p.shared.db := db.(sessions := BumpRevision(db.sessions, session.value), logs := db.logs[id := log]);
    StreamedRows(db, p.tokens, id, first, deltas);
    r := Ok(());
  }

  /** Every session whose history contains the message was checked. */
  lemma OwnersCoverForks(db: Db, tokens: Tokens, id: MessageId, associated: Option<SessionId>, s: SessionId)
    requires Owners(db, tokens, id, associated, {}).Ok? && s in db.sessions && InHistory(db, s, id)
    ensures AssertOwner(db.sessions, tokens, s).Ok? && s in Owners(db, tokens, id, associated, {}).value
  {
    assert s in MessageSessions(db, id, associated);
  }

  lemma {:induction false} OwnersAreOwned(db: Db, tokens: Tokens, cursor: MessageId, associated: Option<SessionId>,
                                          visited: set<MessageId>, s: SessionId)
    requires Owners(db, tokens, cursor, associated, visited).Ok?
    requires s in Owners(db, tokens, cursor, associated, visited).value || associated == Some(s)
    ensures AssertOwner(db.sessions, tokens, s).Ok?
    decreases db.records.Keys - visited
  {
    var sessions := MessageSessions(db, cursor, associated);
    if sessions == {} && cursor in db.records && db.records[cursor].message.parent.Some? && associated != Some(s) {
      OwnersAreOwned(db, tokens, db.records[cursor].message.parent.value, None, visited + {cursor}, s);
    }
  }

  /** The row and the whole history of `s` are as they were. */
  predicate Untouched(db: Db, db': Db, s: SessionId) {
    s in db.sessions && s in db'.sessions && db'.sessions[s] == db.sessions[s] && HistoryOf(db', s) == HistoryOf(db, s)
  }

  lemma WriteIsolated(db: Db, tokens: Tokens, associated: Option<SessionId>, message: Message, s: SessionId)
    requires WriteMessageRecord(db, tokens, associated, message).Ok? && LeasedElsewhere(db.sessions, tokens, s)
    ensures Untouched(db, WriteMessageRecord(db, tokens, associated, message).value, s)
  {
    var db' := WriteMessageRecord(db, tokens, associated, message).value;
    var owners := Owners(db, tokens, message.id, associated, {}).value;
    assert !InHistory(db, s, message.id) by {
      if InHistory(db, s, message.id) {
        OwnersCoverForks(db, tokens, message.id, associated, s);
      }
    }
    assert s !in owners + Members(associated) by {
      if s in owners + Members(associated) {
        OwnersAreOwned(db, tokens, message.id, associated, {}, s);
      }
    }
    SameHistory(db, db', s);
  }

  /** Saving a message never changes the row or the history of a session leased to another runtime. */
  lemma SaveIsolated(db: Db, tokens: Tokens, message: Message, s: SessionId)
    requires SaveMessage(db, tokens, message).Ok? && LeasedElsewhere(db.sessions, tokens, s)
    ensures Untouched(db, SaveMessage(db, tokens, message).value, s)
  {
    var session := SessionOf(db.records, message.id);
    if (session.None? || session.value !in db.sessions) && message.parent.Some? && session.None? {
      WriteIsolated(db, tokens, SessionOf(db.records, message.parent.value), message, s);
    } else {
      WriteIsolated(db, tokens, session, message, s);
    }
  }

  /** Neither does deleting one. */
  lemma DeleteIsolated(db: Db, tokens: Tokens, id: MessageId, s: SessionId)
    requires DeleteMessageRecord(db, tokens, id).Ok? && LeasedElsewhere(db.sessions, tokens, s)
    ensures Untouched(db, DeleteMessageRecord(db, tokens, id).value, s)
  {
    if id in db.records {
      var associated := db.records[id].session;
      var owners := Owners(db, tokens, id, associated, {}).value;
      assert !InHistory(db, s, id) by {
        if InHistory(db, s, id) {
          OwnersCoverForks(db, tokens, id, associated, s);
        }
      }
      assert s !in owners by {
        if s in owners {
          OwnersAreOwned(db, tokens, id, associated, {}, s);
        }
      }
      SameHistory(db, DeleteMessageRecord(db, tokens, id).value, s);
    }
  }

  /**
   * A committed save notifies every session whose history it is part of or that it is filed under, exactly once;
   * it may notify others above it too, but only sessions this runtime may write, and changes nothing else of them.
   */
  lemma SaveNotifiesForks(db: Db, tokens: Tokens, message: Message, s: SessionId)
    requires SaveMessage(db, tokens, message).Ok? && s in db.sessions
    ensures
      var row := SaveMessage(db, tokens, message).value.sessions[s];
      && (InHistory(db, s, message.id) || Filing(db, message) == Some(s) ==> row == Revised(db.sessions[s]))
      && (row == db.sessions[s] || (row == Revised(db.sessions[s]) && AssertOwner(db.sessions, tokens, s).Ok?))
  {
    var session := SessionOf(db.records, message.id);
    var associated := if session.None? && message.parent.Some?
                      then SessionOf(db.records, message.parent.value) else session;
    OwnersBumped(db, tokens, message.id, associated);
  }

  /** Deleting takes this message and its log, and notifies the sessions that referred to it. */
  lemma DeleteNotifiesForks(db: Db, tokens: Tokens, id: MessageId, s: SessionId)
    requires DeleteMessageRecord(db, tokens, id).Ok? && s in db.sessions && id in db.records
    ensures
      var db' := DeleteMessageRecord(db, tokens, id).value;
      && db'.records == db.records - {id} && db'.logs == db.logs - {id} && db'.queue == db.queue
      && db'.sessions.Keys == db.sessions.Keys
      && (Refers(db, s, id) ==> db'.sessions[s] == Revised(db.sessions[s]))
      && (|| db'.sessions[s] == db.sessions[s]
          || (db'.sessions[s] == Revised(db.sessions[s]) && AssertOwner(db.sessions, tokens, s).Ok?))
  {
    OwnersBumped(db, tokens, id, db.records[id].session);
    if Refers(db, s, id) {
      assert s in MessageSessions(db, id, db.records[id].session);
    }
  }
}
