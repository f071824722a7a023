/**
 * Session rows: updating one under a compare-and-swap on its tip, and deleting a
 * session together with the messages that only it could reach.
 */
module SessionStore {
  import opened Types
  import opened Database
  import opened MessageGraph
  import opened References

  datatype SessionMeta = SessionMeta(
    id: SessionId,
    tip: Option<MessageId>,
    title: Option<string>,
    model: Option<string>,
    revision: nat)

  function MetaOf(db: Db, s: SessionId): (r: Option<SessionMeta>) {
    if s in db.sessions then
      var row := db.sessions[s];
      Some(SessionMeta(s, row.tip, row.title, row.model, row.metadataRevision))
    else None
  }

  function AssertSessionRevision(sessions: Sessions, updated: SessionMeta): (r: Result<(), Error>) {
    if updated.id in sessions then
      if sessions[updated.id].metadataRevision == updated.revision then Ok(()) else Err(MetadataChanged)
    else if updated.revision == 0 then Ok(()) else Err(SessionNotFound)
  }

  function SaveSession(sessions: Sessions, meta: SessionMeta): (r: Sessions)
    ensures r.Keys == sessions.Keys + {meta.id} && r[meta.id].tip == meta.tip
  {
    if meta.id in sessions then
      var row := sessions[meta.id];
      sessions[meta.id := row.(tip := meta.tip, title := meta.title, model := meta.model,
                               revision := row.revision + 1, metadataRevision := row.metadataRevision + 1)]
    else sessions[meta.id := FreshRow(meta.tip, meta.title, meta.model)]
  }

  /** A message without a session becomes associated with the first one that links it. */
  function Associate(records: Records, tip: Option<MessageId>, s: SessionId): (r: Records)
    ensures r.Keys == records.Keys && forall id | id in records :: r[id].message == records[id].message
  {
    if tip.Some? && tip.value in records && records[tip.value].session.None?
    then records[tip.value := records[tip.value].(session := Some(s))]
    else records
  }

  /** `update`: `expected` is the tip the caller saw, if it insists on one. */
  function Update(db: Db, tokens: Tokens, meta: SessionMeta, expected: Option<Option<MessageId>>, requireMessage: bool)
    : (r: Result<(Db, bool), Error>)
  {
    var _ :- AssertOwner(db.sessions, tokens, meta.id);
    var stale := expected.Some? && (meta.id !in db.sessions || db.sessions[meta.id].tip != expected.value);
    if stale then Ok((db, false)) else
    var _ :- AssertSessionRevision(db.sessions, meta);
    if requireMessage && meta.tip.Some? && meta.tip.value !in db.records then Err(MissingMessage(meta.tip.value))
    else Ok((db.(sessions := SaveSession(db.sessions, meta), records := Associate(db.records, meta.tip, meta.id)),
             true))
  }

  /** A committed update keeps every chain complete exactly when the tip it names has a complete chain. */
  lemma UpdateSound(db: Db, tokens: Tokens, meta: SessionMeta, expected: Option<Option<MessageId>>,
                    requireMessage: bool)
    requires Sound(db) && Update(db, tokens, meta, expected, requireMessage).Ok?
    ensures
      var (db', changed) := Update(db, tokens, meta, expected, requireMessage).value;
      if changed then Sound(db') <==> Rooted(db.records, meta.tip) else db' == db
  {
    var (db', changed) := Update(db, tokens, meta, expected, requireMessage).value;
    if changed {
      forall s | s in db'.sessions && (s != meta.id || Rooted(db.records, meta.tip))
        ensures Rooted(db'.records, db'.sessions[s].tip)
      {
        assert Rooted(db.records, db'.sessions[s].tip);
        var chain :| IsChain(db.records, db'.sessions[s].tip, chain);
        ChainFrame(db.records, db'.records, db'.sessions[s].tip, chain);
      }
      if Rooted(db'.records, db'.sessions[meta.id].tip) {
        var chain :| IsChain(db'.records, meta.tip, chain);
        ChainFrame(db'.records, db.records, meta.tip, chain);
      }
    }
  }

  /** The row of `s` with the metadata that was saved, one revision on; its lease and timer stay. */
  predicate RowSaved(sessions: Sessions, sessions': Sessions, meta: SessionMeta) {
    && sessions' - {meta.id} == sessions - {meta.id} && meta.id in sessions'
    && var row := sessions'[meta.id];
       && row.tip == meta.tip && row.title == meta.title && row.model == meta.model
       && row.metadataRevision == meta.revision + 1
       && if meta.id in sessions
          then && row.revision == sessions[meta.id].revision + 1
               && SameLease(row, sessions[meta.id]) && row.timer == sessions[meta.id].timer
          else !row.active && row.token == 0 && row.timer.None? && row.revision == 1
  }

  /** A message linked for the first time is filed under the session; all others are left alone. */
  predicate TipFiled(records: Records, records': Records, tip: Option<MessageId>, s: SessionId) {
    && records'.Keys == records.Keys
    && forall id | id in records ::
         && records'[id].message == records[id].message
         && records'[id].session ==
            if tip == Some(id) && records[id].session.None? then Some(s) else records[id].session
  }

  /** The metadata was saved, and nothing else changed. */
  predicate Updated(db: Db, db': Db, meta: SessionMeta) {
    && RowSaved(db.sessions, db'.sessions, meta) && TipFiled(db.records, db'.records, meta.tip, meta.id)
    && db'.logs == db.logs && db'.queue == db.queue
  }

  /** When an update commits, when it declines, and what it leaves. */
  lemma UpdateExact(db: Db, tokens: Tokens, meta: SessionMeta, expected: Option<Option<MessageId>>,
                    requireMessage: bool)
    ensures
      var r := Update(db, tokens, meta, expected, requireMessage);
      var owned := AssertOwner(db.sessions, tokens, meta.id).Ok?;
      var stale := expected.Some? && !(meta.id in db.sessions && db.sessions[meta.id].tip == expected.value);
      && (r.Ok? && !r.value.1 <==> owned && stale)
      && (r.Ok? && r.value.1 <==>
            && owned && !stale
            && meta.revision == (if meta.id in db.sessions then db.sessions[meta.id].metadataRevision else 0)
            && (requireMessage && meta.tip.Some? ==> meta.tip.value in db.records))
      && (r.Ok? && !r.value.1 ==> r.value.0 == db)
      && (r.Ok? && r.value.1 ==> Updated(db, r.value.0, meta))
  {
    var r := Update(db, tokens, meta, expected, requireMessage);
    if r.Ok? && r.value.1 {
      var sessions := r.value.0.sessions;
      assert sessions - {meta.id} == db.sessions - {meta.id};
    }
  }

  /** A session leased to another runtime is neither updated nor affected by the update of another. */
  lemma UpdateIsolated(db: Db, tokens: Tokens, meta: SessionMeta, expected: Option<Option<MessageId>>,
                       requireMessage: bool, s: SessionId)
    requires LeasedElsewhere(db.sessions, tokens, s)
    ensures
      var r := Update(db, tokens, meta, expected, requireMessage);
      (meta.id == s ==> r.Err?) && (r.Ok? ==> Untouched(db, r.value.0, s))
  {
    var r := Update(db, tokens, meta, expected, requireMessage);
    if r.Ok? {
      SameHistory(db, r.value.0, s);
    }
  }

  predicate MessageReferenced(db: Db, id: MessageId) {
    exists s | s in db.sessions :: InHistory(db, s, id)
  }

  function DeleteMessageRecords(db: Db, tokens: Tokens, id: MessageId): (r: Result<Db, Error>) {
    var session := SessionOf(db.records, id);
    var _ :- if session.Some? && session.value in db.sessions
             then AssertOwner(db.sessions, tokens, session.value) else Ok(());
    Ok(db.(records := db.records - {id}, logs := db.logs - {id}))
  }

  function DeleteUnreferenced(db: Db, tokens: Tokens, id: MessageId): (r: Result<Db, Error>) {
    if MessageReferenced(db, id) then Ok(db) else DeleteMessageRecords(db, tokens, id)
  }

  /** Removing messages no session reaches changes no history. */
  lemma UnreachedRemoval(db: Db, db': Db, gone: set<MessageId>, s: SessionId)
    requires s in db.sessions && s in db'.sessions && db'.sessions[s] == db.sessions[s]
    requires db'.records == db.records - gone && db'.logs == db.logs - gone
    requires forall id | id in gone :: !InHistory(db, s, id)
    ensures Untouched(db, db', s)
    ensures forall id :: InHistory(db', s, id) <==> InHistory(db, s, id)
    ensures Rooted(db.records, db.sessions[s].tip) ==> Rooted(db'.records, db'.sessions[s].tip)
  {
    SameHistory(db, db', s);
    if chain :| IsChain(db.records, db.sessions[s].tip, chain) {
      ChainIsAncestry(db.records, db.sessions[s].tip, chain, {});
      ChainFrame(db.records, db'.records, db.sessions[s].tip, chain);
    }
  }

  /** Dropping a message that some history needs does nothing; any other goes alone, and no history notices. */
  lemma DeleteUnreferencedSafe(db: Db, tokens: Tokens, id: MessageId)
    requires DeleteUnreferenced(db, tokens, id).Ok?
    ensures
      var db' := DeleteUnreferenced(db, tokens, id).value;
      && db'.sessions == db.sessions && db'.queue == db.queue
      && (forall s | s in db.sessions :: Untouched(db, db', s))
      && (Sound(db) ==> Sound(db'))
      && (id in db'.records ==> MessageReferenced(db', id))
      && (if MessageReferenced(db, id) then db' == db
          else db'.records == db.records - {id} && db'.logs == db.logs - {id})
  {
    var db' := DeleteUnreferenced(db, tokens, id).value;
    if !MessageReferenced(db, id) {
      forall s | s in db.sessions
        ensures Untouched(db, db', s)
                && (Rooted(db.records, db.sessions[s].tip) ==> Rooted(db'.records, db'.sessions[s].tip))
      {
        UnreachedRemoval(db, db', {id}, s);
      }
    }
  }

  /** The messages a session takes with it: in its history or created for it, and in no other history. */
  predicate Doomed(db: Db, s: SessionId, id: MessageId) {
    && (InHistory(db, s, id) || SessionOf(db.records, id) == Some(s))
    && !Retained(db, s, id)
  }

  predicate Retained(db: Db, s: SessionId, id: MessageId) {
    exists other | other in db.sessions :: other != s && InHistory(db, other, id)
  }

  function DoomedMessages(db: Db, s: SessionId): (r: set<MessageId>) {
    set id | id in Ancestry(db.records, TipOf(db.sessions, s), {}) + db.records.Keys && Doomed(db, s, id)
  }

  /** A doomed message that belongs to a surviving session this runtime may not write. */
  predicate Blocked(db: Db, tokens: Tokens, id: MessageId) {
    var session := SessionOf(db.records, id);
    session.Some? && session.value in db.sessions && AssertOwner(db.sessions, tokens, session.value).Err?
  }

  /** The queue without the session's messages. */
  function Unqueued(queue: Queue, s: SessionId): (r: Queue) {
    map k | k in queue && k.0 != s :: queue[k]
  }

  function DeleteSession(db: Db, tokens: Tokens, s: SessionId): (r: Result<Db, Error>) {
    var _ :- AssertOwner(db.sessions, tokens, s);
    var doomed := DoomedMessages(db, s);
    var rest := db.sessions - {s};
    if exists id | id in doomed :: Blocked(db.(sessions := rest), tokens, id) then Err(OwnedByAnother)
    else Ok(Db(rest, db.records - doomed, db.logs - doomed, Unqueued(db.queue, s)))
  }

  /** The transaction: remove the row, then each doomed message in turn; any refusal undoes everything. */
  method Delete(p: Process, s: SessionId) returns (r: Result<(), Error>)
    modifies p.shared
    ensures match DeleteSession(old(p.shared.db), p.tokens, s)
            case Ok(db) => r == Ok(()) && p.shared.db == db
            case Err(_) => r.Err? && p.shared.db == old(p.shared.db)
  {
    var db := p.shared.db;
    var owner := AssertOwner(db.sessions, p.tokens, s);
    if owner.Err? {
      return Err(owner.error);
    }
    var doomed := DoomedMessages(db, s);
    var work := db.(sessions := db.sessions - {s}, queue := Unqueued(db.queue, s));
    var todo := doomed;
    while todo != {}
      invariant todo <= doomed
      invariant work.sessions == db.sessions - {s} && work.queue == Unqueued(db.queue, s)
      invariant work.records == db.records - (doomed - todo) && work.logs == db.logs - (doomed - todo)
      invariant forall id | id in doomed - todo :: !Blocked(db.(sessions := db.sessions - {s}), p.tokens, id)
      decreases todo
    {
      var id :| id in todo;
      assert SessionOf(work.records, id) == SessionOf(db.records, id);
      var removed := DeleteMessageRecords(work, p.tokens, id);
      if removed.Err? {
        return Err(OwnedByAnother);
      }
      work := removed.value;
      todo := todo - {id};
    }
    assert doomed - todo == doomed;
    p.shared.db := work;
    r := Ok(());
  }

  lemma OthersKept(db: Db, tokens: Tokens, s: SessionId, other: SessionId)
    requires DeleteSession(db, tokens, s).Ok? && other in db.sessions && other != s
    ensures
      var db' := DeleteSession(db, tokens, s).value;
      && Untouched(db, db', other)
      && (forall id :: InHistory(db', other, id) <==> InHistory(db, other, id))
      && (Rooted(db.records, db.sessions[other].tip) ==> Rooted(db'.records, db'.sessions[other].tip))
  {
    UnreachedRemoval(db, DeleteSession(db, tokens, s).value, DoomedMessages(db, s), other);
  }

  /** In the session's history, or created for it. */
  predicate Concerns(db: Db, s: SessionId, id: MessageId) {
    InHistory(db, s, id) || (id in db.records && db.records[id].session == Some(s))
  }

  /** A message the deleted session is concerned with is left exactly when another history needs it. */
  lemma SurvivesIfReached(db: Db, tokens: Tokens, s: SessionId, id: MessageId)
    requires DeleteSession(db, tokens, s).Ok? && Concerns(db, s, id) && id in db.records
    ensures
      var db' := DeleteSession(db, tokens, s).value;
      id in db'.records <==> MessageReferenced(db', id)
  {
    var db' := DeleteSession(db, tokens, s).value;
    assert id in db'.records <==> Retained(db, s, id);
    if Retained(db, s, id) {
      var other :| other in db.sessions && other != s && InHistory(db, other, id);
      OthersKept(db, tokens, s, other);
    }
    if MessageReferenced(db', id) {
      var other :| other in db'.sessions && InHistory(db', other, id);
      OthersKept(db, tokens, s, other);
    }
  }

  lemma DeletionFrame(db: Db, tokens: Tokens, s: SessionId, id: MessageId)
    requires DeleteSession(db, tokens, s).Ok? && id in db.records
    ensures
      var db' := DeleteSession(db, tokens, s).value;
      && (!Concerns(db, s, id) ==> id in db'.records)
      && (id in db'.records ==> db'.records[id] == db.records[id] && SameMessage(db, db', id))
  {
  }

  /**
   * Deletion is exact reachability: every other session keeps its row and reads the same
   * history, a message the session is concerned with survives exactly when another session
   * still reaches it, and messages that have nothing to do with the session stay.
   */
  lemma DeleteSessionExact(db: Db, tokens: Tokens, s: SessionId)
    requires DeleteSession(db, tokens, s).Ok?
    ensures
      var db' := DeleteSession(db, tokens, s).value;
      && s !in db'.sessions && (forall k :: k in db'.queue <==> k in db.queue && k.0 != s)
      && (forall k | k in db'.queue :: db'.queue[k] == db.queue[k])
      && (forall other | other in db.sessions && other != s :: Untouched(db, db', other))
      && db'.records.Keys <= db.records.Keys
      && (forall id | id in db.records ::
            && (id in db'.records <==> !Concerns(db, s, id) || MessageReferenced(db', id))
            && (id in db'.records ==> db'.records[id] == db.records[id] && SameMessage(db, db', id)))
      && (Sound(db) ==> Sound(db'))
  {
    var db' := DeleteSession(db, tokens, s).value;
    forall other | other in db.sessions && other != s
      ensures Untouched(db, db', other)
      ensures Rooted(db.records, db.sessions[other].tip) ==> Rooted(db'.records, db'.sessions[other].tip)
    {
      OthersKept(db, tokens, s, other);
    }
    forall id | id in db.records
      ensures id in db'.records <==> !Concerns(db, s, id) || MessageReferenced(db', id)
      ensures id in db'.records ==> db'.records[id] == db.records[id] && SameMessage(db, db', id)
    {
      DeletionFrame(db, tokens, s, id);
      if Concerns(db, s, id) {
        SurvivesIfReached(db, tokens, s, id);
      }
    }
  }

  /**
   * A session may be deleted exactly when this runtime may write it and every session that one of its messages
   * was created for, if no other history keeps that message; a single message likewise.
   */
  lemma DeletionAllowed(db: Db, tokens: Tokens, s: SessionId)
    ensures DeleteSession(db, tokens, s).Ok? <==>
            && AssertOwner(db.sessions, tokens, s).Ok?
            && forall id | id in db.records && InHistory(db, s, id) && !Retained(db, s, id)
                           && db.records[id].session.Some? ::
                 var filed := db.records[id].session.value;
                 filed in db.sessions && filed != s ==> AssertOwner(db.sessions, tokens, filed).Ok?
    ensures forall id :: DeleteUnreferenced(db, tokens, id).Ok? <==>
              || MessageReferenced(db, id) || id !in db.records || db.records[id].session.None?
              || db.records[id].session.value !in db.sessions
              || AssertOwner(db.sessions, tokens, db.records[id].session.value).Ok?
  {
    var doomed, rest := DoomedMessages(db, s), db.sessions - {s};
    forall id | id in doomed
      ensures Blocked(db.(sessions := rest), tokens, id) <==>
              id in db.records && db.records[id].session.Some? && db.records[id].session.value in rest
              && AssertOwner(db.sessions, tokens, db.records[id].session.value).Err?
    {
    }
    forall id | id in db.records && InHistory(db, s, id) && !Retained(db, s, id)
      ensures id in doomed
    {
    }
  }

  /** Neither deleting a session nor dropping a message reaches one leased to another runtime. */
  lemma RemovalIsolated(db: Db, tokens: Tokens, gone: SessionId, id: MessageId, s: SessionId)
    requires LeasedElsewhere(db.sessions, tokens, s)
    ensures
      var r := DeleteSession(db, tokens, gone);
      (gone == s ==> r.Err?) && (r.Ok? ==> Untouched(db, r.value, s))
    ensures DeleteUnreferenced(db, tokens, id).Ok? ==> Untouched(db, DeleteUnreferenced(db, tokens, id).value, s)
    ensures DeleteUnreferenced(db, tokens, id).Ok? && SessionOf(db.records, id) == Some(s) ==>
              DeleteUnreferenced(db, tokens, id).value == db
  {
    if DeleteSession(db, tokens, gone).Ok? {
      OthersKept(db, tokens, gone, s);
    }
    if DeleteUnreferenced(db, tokens, id).Ok? {
      DeleteUnreferencedSafe(db, tokens, id);
    }
  }
}
