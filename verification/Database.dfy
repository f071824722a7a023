/**
 * The shared SQLite database as a value, one runtime's lease tokens, and the
 * ownership check that guards every write. A committed transaction is one step
 * from a `Db` to the next.
 */
module Database {
  import opened Types
  import opened StreamDeltas
  import History

  type Tokens = map<SessionId, int>

  /** A row of the `sessions` table; the defaults of a new row are in `FreshRow`. */
  datatype SessionRow = SessionRow(
    tip: Option<MessageId>,
    title: Option<string>,
    model: Option<string>,
    revision: nat,
    metadataRevision: nat,
    active: bool,
    expiresAt: int,
    token: int,
    timer: Option<string>)

  type Sessions = map<SessionId, SessionRow>

  function FreshRow(tip: Option<MessageId>, title: Option<string>, model: Option<string>): (row: SessionRow)
    ensures !row.active && row.token == 0
  {
    SessionRow(tip, title, model, 1, 1, false, 0, 0, None)
  }

  predicate SameLease(a: SessionRow, b: SessionRow) {
    a.active == b.active && a.expiresAt == b.expiresAt && a.token == b.token
  }

  function TokenOf(tokens: Tokens, s: SessionId): (t: Option<int>) {
    if s in tokens then Some(tokens[s]) else None
  }

  /** The check before every write: what the row says against what this runtime remembers. */
  function AssertOwner(sessions: Sessions, tokens: Tokens, s: SessionId): (r: Result<(), Error>)
    ensures s in sessions && sessions[s].active ==> (r.Ok? <==> TokenOf(tokens, s) == Some(sessions[s].token))
    ensures s in sessions && !sessions[s].active ==> (r.Ok? <==> TokenOf(tokens, s).None?)
    ensures s !in sessions ==> (r.Ok? <==> TokenOf(tokens, s).None?)
  {
    if s in sessions then
      if s in tokens then
        if sessions[s].active && tokens[s] == sessions[s].token then Ok(()) else Err(OwnershipLost)
      else
        if !sessions[s].active then Ok(()) else Err(OwnedByAnother)
    else
      if s !in tokens then Ok(()) else Err(OwnedSessionDeleted)
  }

  /** Another runtime holds an active lease on `s`. */
  predicate LeasedElsewhere(sessions: Sessions, tokens: Tokens, s: SessionId) {
    s in sessions && sessions[s].active && TokenOf(tokens, s) != Some(sessions[s].token)
  }

  function BumpRevision(sessions: Sessions, s: SessionId): (r: Sessions) {
    if s in sessions then sessions[s := sessions[s].(revision := sessions[s].revision + 1)] else sessions
  }

  /** Bumps every listed session once. */
  function BumpAll(sessions: Sessions, bumped: set<SessionId>): (r: Sessions)
    ensures r.Keys == sessions.Keys
  {
    map s | s in sessions :: if s in bumped then sessions[s].(revision := sessions[s].revision + 1) else sessions[s]
  }

  /** A stored message and the session it was first associated with. */
  datatype Record = Record(session: Option<SessionId>, message: Message)

  type Records = map<MessageId, Record>

  /** Messages waiting for a session, by session and sequence. */
  type Queue = map<(SessionId, int), string>

  datatype Db = Db(sessions: Sessions, records: Records, logs: map<MessageId, Log>, queue: Queue)

  /** The queue without what a session has consumed, through the given sequence. */
  function Consumed(queue: Queue, s: SessionId, through: Option<int>): (r: Queue) {
    map k | k in queue && !(through.Some? && k.0 == s && k.1 <= through.value) :: queue[k]
  }

  function LogOf(db: Db, id: MessageId): Log {
    if id in db.logs then db.logs[id] else EMPTY
  }

  /** What each message reads as, its stored deltas included. */
  function Views(db: Db): (r: History.Store)
    ensures r.Keys == db.records.Keys
  {
    map id | id in db.records :: Read(db.records[id].message, LogOf(db, id))
  }

  function SessionOf(records: Records, id: MessageId): (r: Option<SessionId>) {
    if id in records then records[id].session else None
  }

  function TipOf(sessions: Sessions, s: SessionId): (r: Option<MessageId>) {
    if s in sessions then sessions[s].tip else None
  }

  /** The full history of a session, tip first. */
  function HistoryOf(db: Db, s: SessionId): (r: Result<seq<Message>, Error>) {
    History.Walk(Views(db), TipOf(db.sessions, s), {})
  }

  /** The shared database, and a process using it with the tokens it remembers. */
  class Shared {
    var db: Db

    constructor ()
      ensures db == Db(map[], map[], map[], map[])
    {
      db := Db(map[], map[], map[], map[]);
    }
  }

  class Process {
    const shared: Shared
    var tokens: Tokens

    constructor (shared: Shared)
      ensures this.shared == shared && tokens == map[]
    {
      this.shared := shared;
      tokens := map[];
    }
  }
}
