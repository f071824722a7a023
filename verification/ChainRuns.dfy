/**
 * Any number of processes at work on the shared database, each acting on what it
 * read at some earlier time. Every session's parent chain stays complete, with one
 * exception that is pinned down exactly.
 */
module ChainRuns {
  import opened Types
  import opened Database
  import opened StreamDeltas
  import opened MessageGraph
  import opened References
  import opened SessionStore
  import opened Turns
  import opened History

  type Parents = map<MessageId, Option<MessageId>>

  /**
   * The database, and as history the parent every message was last stored with and the tip every session
   * ever had at each revision of its metadata.
   */
  datatype World = World(db: Db, parents: Parents, tips: map<(SessionId, nat), Option<MessageId>>)

  function ParentsOf(records: Records): (r: Parents) {
    map id | id in records :: records[id].message.parent
  }

  function TipsOf(sessions: Sessions): (r: map<(SessionId, nat), Option<MessageId>>) {
    map k | k in set s | s in sessions :: (s, sessions[s].metadataRevision) :: sessions[k.0].tip
  }

  /** A path, newest first, from `from` along recorded parents to `end`. */
  predicate IsPath(parents: Parents, from: Option<MessageId>, path: seq<MessageId>, end: Option<MessageId>)
    decreases |path|
  {
    if path == [] then from == end
    else from == Some(path[0]) && path[0] in parents && IsPath(parents, parents[path[0]], path[1..], end)
  }

  datatype Step =
    | Create(tokens: Tokens, meta: SessionMeta)
    | SaveMeta(tokens: Tokens, meta: SessionMeta)
    | Append(tokens: Tokens, read: SessionMeta, expected: Option<MessageId>, news: seq<NewMessage>,
             title: Option<string>, consumed: Option<int>)
    | ConsumeQueue(tokens: Tokens, s: SessionId, through: int)
    | StoreMessage(tokens: Tokens, message: Message)
    | Stream(tokens: Tokens, id: MessageId, first: nat, deltas: seq<StreamDelta>)
    | Recover(tokens: Tokens, meta: SessionMeta, expected: Option<MessageId>, id: MessageId)
    | LinkSaved(tokens: Tokens, meta: SessionMeta, expected: Option<MessageId>, path: seq<MessageId>)
    | Rewind(tokens: Tokens, meta: SessionMeta, expected: Option<MessageId>, path: seq<MessageId>)
    | DropUnreferenced(tokens: Tokens, id: MessageId)
    | Remove(tokens: Tokens, s: SessionId)

  predicate NewSession(w: World, s: SessionId) {
    forall k | k in w.tips :: k.0 != s
  }

  /**
   * What callers guarantee: session ids are used once and a session is created empty or at a tip some session
   * has in its history; saving metadata keeps the tip it was read with; a stored message is saved again with
   * the parent it has. An id whose message was removed may be stored again under any parent. A step that moves
   * a tip may be based on anything read at any time; whether that still holds is for the database to find out.
   */
  predicate Enabled(w: World, step: Step) {
    match step
    case Create(_, meta) =>
      && NewSession(w, meta.id) && meta.revision == 0
      && (meta.tip.None? || exists s | s in w.db.sessions :: InHistory(w.db, s, meta.tip.value))
    case SaveMeta(_, meta) => (meta.id, meta.revision) in w.tips && w.tips[(meta.id, meta.revision)] == meta.tip
    case StoreMessage(_, message) =>
      message.id in w.db.records ==> w.db.records[message.id].message.parent == message.parent
    case _ => true
  }

  /** Steps that move the tip of a session from `expected` to `meta.tip`. */
  predicate Moves(step: Step) {
    step.Recover? || step.LinkSaved? || step.Rewind?
  }

  /** The messages whose parents such a step relies on. */
  function PathOf(step: Step): (r: seq<MessageId>)
    requires Moves(step)
  {
    if step.Recover? then [step.id] else step.path
  }

  /**
   * No message the step relies on has been stored under another parent since: a recovered message has the tip
   * that was read as its parent, messages saved one by one lead to it, a rewind goes back from it.
   */
  predicate Current(w: World, step: Step)
    requires Moves(step)
  {
    match step
    case Recover(_, meta, expected, id) => meta.tip == Some(id) && IsPath(w.parents, meta.tip, [id], expected)
    case LinkSaved(_, meta, expected, path) => IsPath(w.parents, meta.tip, path, expected)
    case Rewind(_, meta, expected, path) => IsPath(w.parents, expected, path, meta.tip)
  }

  function Settled(db: Db, r: Result<Db, Error>): (db': Db) {
    if r.Ok? then r.value else db
  }

  function Moved(db: Db, r: Result<(Db, bool), Error>): (db': Db) {
    if r.Ok? then r.value.0 else db
  }

  function Committed(db: Db, step: Step): (db': Db) {
    match step
    case Create(tokens, meta) => Moved(db, Update(db, tokens, meta, None, false))
    case SaveMeta(tokens, meta) => Moved(db, Update(db, tokens, meta, None, false))
    case ConsumeQueue(tokens, s, through) => Settled(db, Dequeue(db, tokens, s, through))
    case Append(tokens, read, expected, news, title, consumed) =>
      var plan := PlanAppend(read, expected, news, title, consumed);
      if plan.Err? then db else Moved(db, SaveLinked(db, tokens, plan.value))
    case StoreMessage(tokens, message) => Settled(db, SaveMessage(db, tokens, message))
    case Stream(tokens, id, first, deltas) => Settled(db, AppendDeltas(db, tokens, id, first, deltas))
    case Recover(tokens, meta, expected, _) => Moved(db, Update(db, tokens, meta, Some(expected), true))
    case LinkSaved(tokens, meta, expected, _) => Moved(db, Update(db, tokens, meta, Some(expected), false))
    case Rewind(tokens, meta, expected, _) => Moved(db, Update(db, tokens, meta, Some(expected), false))
    case DropUnreferenced(tokens, id) => Settled(db, DeleteUnreferenced(db, tokens, id))
    case Remove(tokens, s) => Settled(db, DeleteSession(db, tokens, s))
  }

  function Next(w: World, step: Step): (w': World) {
    var db := Committed(w.db, step);
    World(db, w.parents + ParentsOf(db.records), w.tips + TipsOf(db.sessions))
  }

  predicate Valid(w: World, steps: seq<Step>)
    decreases |steps|
  {
    steps == [] || (Enabled(w, steps[0]) && Valid(Next(w, steps[0]), steps[1..]))
  }

  function After(w: World, steps: seq<Step>): (r: World)
    decreases |steps|
  {
    if steps == [] then w else After(Next(w, steps[0]), steps[1..])
  }

  /** The history records what is stored now. */
  ghost predicate Recorded(w: World) {
    && (forall id | id in w.db.records :: id in w.parents && w.parents[id] == w.db.records[id].message.parent)
    && (forall s | s in w.db.sessions ::
          && (s, w.db.sessions[s].metadataRevision) in w.tips
          && w.tips[(s, w.db.sessions[s].metadataRevision)] == w.db.sessions[s].tip)
  }

  lemma RecordedStep(w: World, step: Step)
    ensures Recorded(Next(w, step))
  {
    var db := Committed(w.db, step);
    forall s | s in db.sessions
      ensures (s, db.sessions[s].metadataRevision) in TipsOf(db.sessions)
    {
    }
  }

  // What one step does to the chains -------------------------------------------

  lemma {:induction false} PathFits(w: World, from: Option<MessageId>, path: seq<MessageId>, end: Option<MessageId>)
    requires Recorded(w) && IsPath(w.parents, from, path, end)
    ensures Fits(w.db.records, path, end) && from == First(path, end)
    decreases |path|
  {
    if path != [] {
      PathFits(w, w.parents[path[0]], path[1..], end);
      forall i | 0 <= i < |path| && path[i] in w.db.records
        ensures w.db.records[path[i]].message.parent == ParentOnPath(path, i, end)
      {
        if i > 0 {
          assert path[1..][i - 1] == path[i];
        }
      }
    }
  }

  /** Going back along a path on a complete chain ends on a complete chain. */
  lemma {:induction false} PathOnChain(w: World, from: Option<MessageId>, path: seq<MessageId>, end: Option<MessageId>,
                                       chain: seq<MessageId>)
    requires Recorded(w) && IsPath(w.parents, from, path, end) && IsChain(w.db.records, from, chain)
    ensures Rooted(w.db.records, end)
    decreases |path|
  {
    if path != [] {
      PathOnChain(w, w.parents[path[0]], path[1..], end, chain[1..]);
    }
  }

  function Swap(db: Db, step: Step): (r: Result<(Db, bool), Error>)
    requires Moves(step)
  {
    Update(db, step.tokens, step.meta, Some(step.expected), step.Recover?)
  }

  /**
   * What a committed move must find. If it is current: for messages saved one by one that all are still stored,
   * for a recovery or a rewind nothing. Otherwise that the tip it names has a complete chain.
   */
  ghost predicate Finds(w: World, step: Step) {
    Moves(step) && Swap(w.db, step).Ok? && Swap(w.db, step).value.1 ==>
      if Current(w, step) then step.LinkSaved? ==> AllStored(w.db.records, step.path)
      else Rooted(w.db.records, step.meta.tip)
  }

  lemma UpdateKeeps(db: Db, tokens: Tokens, meta: SessionMeta, expected: Option<Option<MessageId>>,
                    requireMessage: bool)
    requires Sound(db)
    requires
      var r := Update(db, tokens, meta, expected, requireMessage);
      r.Ok? && r.value.1 ==> Rooted(db.records, meta.tip)
    ensures Sound(Moved(db, Update(db, tokens, meta, expected, requireMessage)))
  {
    if Update(db, tokens, meta, expected, requireMessage).Ok? {
      UpdateSound(db, tokens, meta, expected, requireMessage);
    }
  }

  lemma CreateSound(w: World, tokens: Tokens, meta: SessionMeta)
    requires Sound(w.db) && Enabled(w, Create(tokens, meta))
    ensures Sound(Committed(w.db, Create(tokens, meta)))
  {
    if meta.tip.Some? {
      var s :| s in w.db.sessions && InHistory(w.db, s, meta.tip.value);
      HistoryIsRooted(w.db, s, meta.tip.value);
    } else {
      assert IsChain(w.db.records, None, []);
    }
    UpdateKeeps(w.db, tokens, meta, None, false);
  }

  /** The revision check makes a save of metadata keep the tip, however stale it is. */
  lemma SaveMetaSound(w: World, tokens: Tokens, meta: SessionMeta)
    requires Sound(w.db) && Recorded(w) && Enabled(w, SaveMeta(tokens, meta)) && Revisions(w)
    ensures Sound(Committed(w.db, SaveMeta(tokens, meta)))
  {
    var db := w.db;
    if meta.id in db.sessions && db.sessions[meta.id].metadataRevision == meta.revision {
      assert db.sessions[meta.id].tip == meta.tip;
      assert Rooted(db.records, db.sessions[meta.id].tip);
    }
    UpdateKeeps(db, tokens, meta, None, false);
  }

  /** Revision 0 stands for a session that does not exist yet, and no recorded revision is ahead of its row. */
  ghost predicate Revisions(w: World) {
    && (forall s | s in w.db.sessions :: w.db.sessions[s].metadataRevision > 0)
    && (forall k | k in w.tips :: k.1 > 0 && (k.0 in w.db.sessions ==> k.1 <= w.db.sessions[k.0].metadataRevision))
  }

  lemma RecoverRooted(w: World, step: Step)
    requires Sound(w.db) && Recorded(w) && step.Recover? && Current(w, step)
    requires Swap(w.db, step).Ok? && Swap(w.db, step).value.1
    ensures Rooted(w.db.records, step.meta.tip)
  {
    var db := w.db;
    assert Rooted(db.records, db.sessions[step.meta.id].tip);
    var chain :| IsChain(db.records, step.expected, chain);
    assert [step.id][1..] == [] && IsPath(w.parents, w.parents[step.id], [], step.expected);
    assert ([step.id] + chain)[1..] == chain;
    assert IsChain(db.records, Some(step.id), [step.id] + chain);
  }

  lemma RewindRooted(w: World, step: Step)
    requires Sound(w.db) && Recorded(w) && step.Rewind? && Current(w, step)
    requires Swap(w.db, step).Ok? && Swap(w.db, step).value.1
    ensures Rooted(w.db.records, step.meta.tip)
  {
    assert Rooted(w.db.records, w.db.sessions[step.meta.id].tip);
    var chain :| IsChain(w.db.records, step.expected, chain);
    PathOnChain(w, step.expected, step.path, step.meta.tip, chain);
  }

  lemma LinkRooted(w: World, step: Step)
    requires Sound(w.db) && Recorded(w) && step.LinkSaved? && Current(w, step)
    requires Swap(w.db, step).Ok? && Swap(w.db, step).value.1
    ensures Rooted(w.db.records, step.meta.tip) <==> AllStored(w.db.records, step.path)
  {
    assert Rooted(w.db.records, w.db.sessions[step.meta.id].tip);
    var chain :| IsChain(w.db.records, step.expected, chain);
    PathFits(w, step.meta.tip, step.path, step.expected);
    PathIsRooted(w.db.records, step.path, step.expected, chain);
  }

  lemma MoveSound(w: World, step: Step)
    requires Sound(w.db) && Recorded(w) && Moves(step)
    ensures Sound(Committed(w.db, step)) <==> Finds(w, step)
  {
    var moved := Swap(w.db, step);
    if moved.Ok? {
      UpdateSound(w.db, step.tokens, step.meta, Some(step.expected), step.Recover?);
      if moved.value.1 && Current(w, step) {
        match step
        case Recover(_, _, _, _) => RecoverRooted(w, step);
        case LinkSaved(_, _, _, _) => LinkRooted(w, step);
        case Rewind(_, _, _, _) => RewindRooted(w, step);
      }
    }
  }

  lemma AppendSound(db: Db, step: Step)
    requires Sound(db) && step.Append?
    ensures Sound(Committed(db, step))
  {
    var plan := PlanAppend(step.read, step.expected, step.news, step.title, step.consumed);
    if plan.Ok? && SaveLinked(db, step.tokens, plan.value).Ok? {
      AppendAllOrNothing(db, step.tokens, step.read, step.expected, step.news, step.title, step.consumed);
    }
  }

  lemma StreamSound(db: Db, step: Step)
    requires Sound(db) && (step.Stream? || step.ConsumeQueue?)
    ensures Sound(Committed(db, step))
  {
    var db' := Committed(db, step);
    forall s | s in db'.sessions
      ensures Rooted(db'.records, db'.sessions[s].tip)
    {
      assert db'.records == db.records && db'.sessions[s].tip == db.sessions[s].tip;
    }
  }

  lemma SaveSound(w: World, step: Step)
    requires Sound(w.db) && Recorded(w) && step.StoreMessage? && Enabled(w, step)
    ensures Sound(Committed(w.db, step))
  {
    if SaveMessage(w.db, step.tokens, step.message).Ok? {
      SaveKeepsSound(w.db, step.tokens, step.message);
    }
  }

  lemma RemovalSound(db: Db, step: Step)
    requires Sound(db) && (step.DropUnreferenced? || step.Remove?)
    ensures Sound(Committed(db, step))
  {
    if step.Remove? && DeleteSession(db, step.tokens, step.s).Ok? {
      DeleteSessionExact(db, step.tokens, step.s);
    }
    if step.DropUnreferenced? && DeleteUnreferenced(db, step.tokens, step.id).Ok? {
      DeleteUnreferencedSafe(db, step.tokens, step.id);
    }
  }

  ghost predicate Inv(w: World) {
    Recorded(w) && Revisions(w)
  }

  /** A step keeps every chain complete exactly when it finds what it must; only steps that move a tip must. */
  lemma SoundExactly(w: World, step: Step)
    requires Sound(w.db) && Inv(w) && Enabled(w, step)
    ensures Sound(Next(w, step).db) <==> Finds(w, step)
  {
    match step
    case Create(tokens, meta) => CreateSound(w, tokens, meta);
    case SaveMeta(tokens, meta) => SaveMetaSound(w, tokens, meta);
    case Append(_, _, _, _, _, _) => AppendSound(w.db, step);
    case ConsumeQueue(_, _, _) => StreamSound(w.db, step);
    case StoreMessage(_, _) => SaveSound(w, step);
    case Stream(_, _, _, _) => StreamSound(w.db, step);
    case Recover(_, _, _, _) => MoveSound(w, step);
    case LinkSaved(_, _, _, _) => MoveSound(w, step);
    case Rewind(_, _, _, _) => MoveSound(w, step);
    case DropUnreferenced(_, _) => RemovalSound(w.db, step);
    case Remove(_, _) => RemovalSound(w.db, step);
  }

  // Runs ------------------------------------------------------------------------

  /** Sessions keep their row, or get the next revision of it, or are new. */
  ghost predicate RowKept(db: Db, db': Db, s: SessionId) {
    s in db'.sessions ==>
      var row := db'.sessions[s];
      if s !in db.sessions then row.metadataRevision == 1
      else (row.tip == db.sessions[s].tip && row.metadataRevision == db.sessions[s].metadataRevision)
           || row.metadataRevision == db.sessions[s].metadataRevision + 1
  }

  lemma AppendRows(db: Db, step: Step, s: SessionId)
    requires step.Append?
    ensures RowKept(db, Committed(db, step), s) && Committed(db, step).sessions.Keys == db.sessions.Keys
  {
    var plan := PlanAppend(step.read, step.expected, step.news, step.title, step.consumed);
    if plan.Ok? && SaveLinked(db, step.tokens, plan.value).Ok? && SaveLinked(db, step.tokens, plan.value).value.1 {
      LinkKeepsRows(db, step.tokens, step.read.id, plan.value.messages);
    }
  }

  lemma UpdateRows(db: Db, tokens: Tokens, meta: SessionMeta, expected: Option<Option<MessageId>>, requireMessage: bool,
                   s: SessionId)
    ensures
      var db' := Moved(db, Update(db, tokens, meta, expected, requireMessage));
      && RowKept(db, db', s)
      && (s in db'.sessions && s !in db.sessions ==> s == meta.id && meta.revision == 0 && expected.None?)
  {
  }

  lemma MoveRows(w: World, step: Step, s: SessionId)
    requires Moves(step)
    ensures RowKept(w.db, Committed(w.db, step), s)
    ensures s in Committed(w.db, step).sessions ==> s in w.db.sessions
  {
    UpdateRows(w.db, step.tokens, step.meta, Some(step.expected), step.Recover?, s);
  }

  lemma MetaRows(w: World, step: Step, s: SessionId)
    requires Inv(w) && Enabled(w, step) && (step.Create? || step.SaveMeta?)
    ensures RowKept(w.db, Committed(w.db, step), s)
    ensures s in Committed(w.db, step).sessions && s !in w.db.sessions ==> NewSession(w, s)
  {
    UpdateRows(w.db, step.tokens, step.meta, None, false, s);
  }

  lemma MessageRows(db: Db, step: Step, s: SessionId)
    requires step.StoreMessage? || step.Stream? || step.ConsumeQueue? || step.DropUnreferenced? || step.Remove?
    ensures RowKept(db, Committed(db, step), s)
    ensures s in Committed(db, step).sessions ==> s in db.sessions
  {
  }

  lemma RowsStep(w: World, step: Step, s: SessionId)
    requires Inv(w) && Enabled(w, step)
    ensures RowKept(w.db, Committed(w.db, step), s)
    ensures s in Committed(w.db, step).sessions && s !in w.db.sessions ==> NewSession(w, s)
  {
    if step.Append? {
      AppendRows(w.db, step, s);
    } else if Moves(step) {
      MoveRows(w, step, s);
    } else if step.Create? || step.SaveMeta? {
      MetaRows(w, step, s);
    } else {
      MessageRows(w.db, step, s);
    }
  }

  /** A message that stays stored keeps its parent; only one that was removed can come back under another. */
  lemma StoredKeepsParent(w: World, step: Step, id: MessageId)
    requires Enabled(w, step) && id in w.db.records && id in Committed(w.db, step).records
    ensures Committed(w.db, step).records[id].message.parent == w.db.records[id].message.parent
  {
    if step.Append? {
      AppendKeepsParent(w.db, step, id);
    } else if !step.StoreMessage? {
      OtherKeepsParent(w.db, step, id);
    }
  }

  lemma OtherKeepsParent(db: Db, step: Step, id: MessageId)
    requires !step.Append? && !step.StoreMessage? && id in Committed(db, step).records
    ensures id in db.records && Committed(db, step).records[id].message == db.records[id].message
  {
  }

  lemma AppendKeepsParent(db: Db, step: Step, id: MessageId)
    requires step.Append? && id in db.records && id in Committed(db, step).records
    ensures Committed(db, step).records[id].message.parent == db.records[id].message.parent
  {
    var plan := PlanAppend(step.read, step.expected, step.news, step.title, step.consumed);
    if plan.Ok? && SaveLinked(db, step.tokens, plan.value).Ok? && SaveLinked(db, step.tokens, plan.value).value.1 {
      LinkStores(db, step.tokens, step.read.id, plan.value.messages, id);
    }
  }

  /** No revision of a session is ever recorded with another tip. */
  ghost predicate Remembers(w: World, w': World) {
    forall k | k in w.tips :: k in w'.tips && w'.tips[k] == w.tips[k]
  }

  lemma InvStep(w: World, step: Step)
    requires Inv(w) && Enabled(w, step)
    ensures Inv(Next(w, step)) && Remembers(w, Next(w, step))
  {
    var w' := Next(w, step);
    RecordedStep(w, step);
    forall s
      ensures RowKept(w.db, w'.db, s) && (s in w'.db.sessions && s !in w.db.sessions ==> NewSession(w, s))
    {
      RowsStep(w, step, s);
    }
    TipsKept(w, w');
  }

  lemma TipsKept(w: World, w': World)
    requires Inv(w) && w'.tips == w.tips + TipsOf(w'.db.sessions)
    requires forall s :: RowKept(w.db, w'.db, s) && (s in w'.db.sessions && s !in w.db.sessions ==> NewSession(w, s))
    ensures Revisions(w') && forall k | k in w.tips :: w'.tips[k] == w.tips[k]
  {
    forall k | k in w.tips
      ensures w'.tips[k] == w.tips[k] && (k.0 in w'.db.sessions ==> k.1 <= w'.db.sessions[k.0].metadataRevision)
    {
      assert RowKept(w.db, w'.db, k.0);
      if k in TipsOf(w'.db.sessions) {
        assert k.1 == w'.db.sessions[k.0].metadataRevision;
      }
    }
    forall s | s in w'.db.sessions
      ensures w'.db.sessions[s].metadataRevision > 0
    {
      assert RowKept(w.db, w'.db, s);
    }
  }

  ghost predicate StaysSound(w: World, steps: seq<Step>)
    decreases |steps|
  {
    Sound(w.db) && (steps == [] || StaysSound(Next(w, steps[0]), steps[1..]))
  }

  /** Every step found what it must. */
  ghost predicate AllFound(w: World, steps: seq<Step>)
    decreases |steps|
  {
    steps == [] || (Finds(w, steps[0]) && AllFound(Next(w, steps[0]), steps[1..]))
  }

  /**
   * In every run, however stale the steps, each session's chain stays complete and free of cycles throughout,
   * if and only if every committed move of a tip finds what it must: a link of messages saved before, all of
   * them; a move relying on a message that was removed and stored again elsewhere, a complete chain; any other,
   * nothing.
   */
  lemma {:induction false} ChainsStaySound(w: World, steps: seq<Step>)
    requires Sound(w.db) && Inv(w) && Valid(w, steps)
    ensures StaysSound(w, steps) <==> AllFound(w, steps)
    decreases |steps|
  {
    if steps != [] {
      SoundExactly(w, steps[0]);
      InvStep(w, steps[0]);
      if Sound(Next(w, steps[0]).db) {
        ChainsStaySound(Next(w, steps[0]), steps[1..]);
      }
    }
  }

  lemma {:induction false} InvRun(w: World, steps: seq<Step>)
    requires Inv(w) && Valid(w, steps)
    ensures Inv(After(w, steps)) && Remembers(w, After(w, steps))
    decreases |steps|
  {
    if steps != [] {
      InvStep(w, steps[0]);
      InvRun(Next(w, steps[0]), steps[1..]);
    }
  }

  /** The run stores none of these messages under another parent than before. */
  ghost predicate KeepsParents(w: World, steps: seq<Step>, ids: seq<MessageId>)
    decreases |steps|
  {
    steps == [] ||
    (&& (forall id | id in ids && id in w.parents :: Next(w, steps[0]).parents[id] == w.parents[id])
     && KeepsParents(Next(w, steps[0]), steps[1..], ids))
  }

  lemma {:induction false} PathKept(parents: Parents, parents': Parents, from: Option<MessageId>, path: seq<MessageId>,
                                    end: Option<MessageId>)
    requires IsPath(parents, from, path, end)
    requires forall id | id in path && id in parents :: id in parents' && parents'[id] == parents[id]
    ensures IsPath(parents', from, path, end)
    decreases |path|
  {
    if path != [] {
      assert path[0] in path;
      PathKept(parents, parents', parents[path[0]], path[1..], end);
    }
  }

  /** A move stays current, however long it is under way, while its messages keep their parents. */
  lemma {:induction false} MovesStayCurrent(w: World, steps: seq<Step>, step: Step)
    requires Moves(step) && Current(w, step) && KeepsParents(w, steps, PathOf(step))
    ensures Current(After(w, steps), step)
    decreases |steps|
  {
    if steps != [] {
      var w' := Next(w, steps[0]);
      if step.Rewind? {
        PathKept(w.parents, w'.parents, step.expected, step.path, step.meta.tip);
      } else {
        PathKept(w.parents, w'.parents, step.meta.tip, PathOf(step), step.expected);
      }
      MovesStayCurrent(w', steps[1..], step);
    }
  }

  /** Metadata once read may be saved back at any later time. */
  lemma SavesStayEnabled(w: World, steps: seq<Step>, step: Step)
    requires Inv(w) && Valid(w, steps) && step.SaveMeta? && Enabled(w, step)
    ensures Enabled(After(w, steps), step)
  {
    InvRun(w, steps);
  }

  // What a step may reach -----------------------------------------------------------

  lemma MetaIsolated(db: Db, step: Step, s: SessionId)
    requires LeasedElsewhere(db.sessions, step.tokens, s) && (Moves(step) || step.Create? || step.SaveMeta?)
    ensures Untouched(db, Committed(db, step), s)
  {
    if Moves(step) {
      UpdateIsolated(db, step.tokens, step.meta, Some(step.expected), step.Recover?, s);
    } else {
      UpdateIsolated(db, step.tokens, step.meta, None, false, s);
    }
  }

  lemma MessageIsolated(db: Db, step: Step, s: SessionId)
    requires LeasedElsewhere(db.sessions, step.tokens, s)
    requires step.Append? || step.StoreMessage? || step.DropUnreferenced? || step.Remove?
    ensures Untouched(db, Committed(db, step), s)
  {
    match step
    case Append(tokens, read, expected, news, title, consumed) =>
      var plan := PlanAppend(read, expected, news, title, consumed);
      if plan.Ok? && SaveLinked(db, tokens, plan.value).Ok? {
        SaveLinkedIsolated(db, tokens, plan.value, s);
      }
    case StoreMessage(tokens, message) =>
      if SaveMessage(db, tokens, message).Ok? {
        SaveIsolated(db, tokens, message, s);
      }
    case DropUnreferenced(tokens, id) => RemovalIsolated(db, tokens, s, id, s);
    case Remove(tokens, gone) =>
      if DeleteSession(db, tokens, gone).Ok? {
        OthersKept(db, tokens, gone, s);
      }
  }

  /** A change to one message's log concerns the sessions with that message in their history, if it reads otherwise. */
  lemma LogIsolated(db: Db, db': Db, s: SessionId, id: MessageId)
    requires s in db.sessions && s in db'.sessions && db'.sessions[s] == db.sessions[s]
    requires db'.records == db.records && forall k | k != id :: LogOf(db', k) == LogOf(db, k)
    ensures !InHistory(db, s, id) ==> Untouched(db, db', s)
    ensures HistoryOf(db, s).Ok? ==>
              (Untouched(db, db', s) <==>
                 !InHistory(db, s, id) || id !in db.records || Views(db')[id] == Views(db)[id])
  {
    if !InHistory(db, s, id) {
      SameHistory(db, db', s);
    } else if id in db.records && Views(db')[id] != Views(db)[id] {
      if HistoryOf(db, s).Ok? {
        WalkDiffers(db, db', db.sessions[s].tip, {}, id);
      }
    } else {
      assert Views(db') == Views(db);
    }
  }

  lemma {:induction false} WalkDiffers(db: Db, db': Db, cursor: Option<MessageId>, visited: set<MessageId>,
                                       id: MessageId)
    requires db'.records == db.records && id in db.records && Views(db')[id] != Views(db)[id]
    requires forall k | k in db.records && k != id :: Views(db')[k] == Views(db)[k]
    requires id in Ancestry(db.records, cursor, visited) && Walk(Views(db), cursor, visited).Ok?
    ensures Walk(Views(db'), cursor, visited) != Walk(Views(db), cursor, visited)
    decreases db.records.Keys - visited
  {
    var here, all := cursor.value, Walk(Views(db), cursor, visited).value;
    assert Views(db)[here].Ok? && Views(db)[here].value.parent == db.records[here].message.parent;
    WalkHead(Views(db), cursor, visited, all);
    WalkHead(Views(db'), cursor, visited, all);
    if here != id {
      WalkDiffers(db, db', db.records[here].message.parent, visited + {here}, id);
    }
  }

  /**
   * Whatever a runtime does, a session leased to another keeps its row, and it keeps its history too unless
   * the step streams into a message that history holds and that reads differently afterwards.
   */
  lemma StepIsolated(db: Db, step: Step, s: SessionId)
    requires LeasedElsewhere(db.sessions, step.tokens, s)
    ensures s in Committed(db, step).sessions && Committed(db, step).sessions[s] == db.sessions[s]
    ensures !step.Stream? ==> Untouched(db, Committed(db, step), s)
    ensures step.Stream? && !InHistory(db, s, step.id) ==> Untouched(db, Committed(db, step), s)
    ensures step.Stream? && HistoryOf(db, s).Ok? ==>
              (Untouched(db, Committed(db, step), s) <==>
                 || !InHistory(db, s, step.id) || step.id !in db.records
                 || Views(Committed(db, step))[step.id] == Views(db)[step.id])
  {
    var db' := Committed(db, step);
    if step.Stream? {
      LogIsolated(db, db', s, step.id);
    } else if step.ConsumeQueue? {
      SameHistory(db, db', s);
    } else if Moves(step) || step.Create? || step.SaveMeta? {
      MetaIsolated(db, step, s);
    } else {
      MessageIsolated(db, step, s);
    }
  }

  /** A run of steps by runtimes that do not hold the lease on `s`, none streaming into its history. */
  predicate NotOwning(w: World, steps: seq<Step>, s: SessionId)
    decreases |steps|
  {
    steps == [] ||
    (&& LeasedElsewhere(w.db.sessions, steps[0].tokens, s)
     && (steps[0].Stream? ==> !InHistory(w.db, s, steps[0].id))
     && NotOwning(Next(w, steps[0]), steps[1..], s))
  }

  /** So nobody but the owner of a lease touches a leased session, for as long as the lease is active. */
  lemma {:induction false} RunIsolated(w: World, steps: seq<Step>, s: SessionId)
    requires s in w.db.sessions && NotOwning(w, steps, s)
    ensures Untouched(w.db, After(w, steps).db, s)
    decreases |steps|
  {
    if steps != [] {
      StepIsolated(w.db, steps[0], s);
      RunIsolated(Next(w, steps[0]), steps[1..], s);
    }
  }

  /** Two sessions share a streaming message created for the first; the second is leased to another runtime. */
  function SharedStream(a: SessionId, b: SessionId, id: MessageId, token: int): (db: Db) {
    var t := Message(id, None, Assistant([]), Streaming(""), None, None);
    Db(map[a := Row(Some(id)), b := Row(Some(id)).(active := true, token := token)],
       map[id := Record(Some(a), t)], map[], map[])
  }

  /** So the exception is real: only the session the message was created for is asked. */
  lemma StreamReachesForks(a: SessionId, b: SessionId, id: MessageId, token: int, text: string)
    requires a != b
    ensures
      var db, step := SharedStream(a, b, id, token), Stream(map[], id, 0, [AppendText(0, FinalAnswer, text)]);
      LeasedElsewhere(db.sessions, step.tokens, b) && !Untouched(db, Committed(db, step), b)
  {
    var db, delta := SharedStream(a, b, id, token), AppendText(0, FinalAnswer, text);
    var t := db.records[id].message;
    var db' := Committed(db, Stream(map[], id, 0, [delta]));
    DeltaRead(t, delta);
    assert db'.records == db.records && db'.sessions[b] == db.sessions[b];
    assert LogOf(db', id) == InsertBatch(EMPTY, 0, [delta]) && LogOf(db, id) == EMPTY;
    RootAncestry(db.records, id);
    RootWalk(Views(db), id, t);
    LogIsolated(db, db', b, id);
  }

  lemma DeltaRead(t: Message, delta: StreamDelta)
    requires t.status.Streaming? && t.content == Assistant([]) && delta.AppendText? && delta.index == 0
    ensures Read(t, EMPTY) == Ok(t) && Read(t, InsertBatch(EMPTY, 0, [delta])) != Ok(t)
  {
    assert [delta][1..] == [] && InsertBatch(EMPTY, 0, [delta]) == Log(map[0 := delta], 1);
    assert Listing(map[0 := delta], 1) == [delta] by {
      assert Listing(map[0 := delta], 0) == [];
    }
    ApplyOne(t, delta);
  }

  lemma RootWalk(view: Store, id: MessageId, t: Message)
    requires id in view && view[id] == Ok(t) && t.parent.None?
    ensures Walk(view, Some(id), {}) == Ok([t])
  {
    assert Walk(view, None, {} + {id}) == Ok([]) && [t] + [] == [t];
  }

  // The exception ------------------------------------------------------------------

  /** Nobody holds a lease. */
  predicate Unleased(db: Db) {
    forall s | s in db.sessions :: !db.sessions[s].active
  }

  lemma OwnersFree(db: Db, id: MessageId, associated: Option<SessionId>, s: SessionId)
    requires Unleased(db) && s in MessageSessions(db, id, associated)
    ensures Owners(db, map[], id, associated, {}).Ok?
  {
  }

  function Row(tip: Option<MessageId>): (r: SessionRow) {
    FreshRow(tip, None, None)
  }

  /** Two sessions at the same message, which was filed for the first. */
  function Fork(a: SessionId, b: SessionId, t: Message): (w: World) {
    var db := Db(map[a := Row(Some(t.id)), b := Row(Some(t.id))], map[t.id := Record(Some(a), t)], map[], map[]);
    World(db, ParentsOf(db.records), TipsOf(db.sessions))
  }

  function Reply(b: SessionId, t: Message, m: Message): (r: Step) {
    LinkSaved(map[], SessionMeta(b, Some(m.id), None, None, 1), Some(t.id), [m.id])
  }

  lemma RootAncestry(records: Records, id: MessageId)
    requires id in records && records[id].message.parent.None?
    ensures Ancestry(records, Some(id), {}) == {id}
  {
    assert Ancestry(records, None, {} + {id}) == {};
  }

  /** The saved reply is filed for the first session. */
  lemma SavedReply(a: SessionId, b: SessionId, t: Message, m: Message)
    requires a != b && t.id != m.id && t.parent.None? && m.parent == Some(t.id)
    ensures
      var db, db' := Fork(a, b, t).db, Committed(Fork(a, b, t).db, StoreMessage(map[], m));
      && db'.records == db.records[m.id := Record(Some(a), m)]
      && db'.sessions.Keys == {a, b} && Unleased(db')
      && forall s | s in db'.sessions :: db'.sessions[s].tip == Some(t.id) && db'.sessions[s].metadataRevision == 1
  {
    var db := Fork(a, b, t).db;
    OwnersFree(db, t.id, None, a);
    OwnersFree(db, m.id, Some(a), a);
  }

  /** The reply is stored, filed for the first session, and linked nowhere. */
  ghost predicate Replied(w: World, a: SessionId, b: SessionId, t: Message, m: Message) {
    && a != b && t.id != m.id && t.parent.None? && m.parent == Some(t.id)
    && w.db.records == map[t.id := Record(Some(a), t), m.id := Record(Some(a), m)]
    && w.db.sessions.Keys == {a, b} && Unleased(w.db) && m.id in w.parents && w.parents[m.id] == Some(t.id)
    && forall s | s in w.db.sessions :: w.db.sessions[s].tip == Some(t.id) && w.db.sessions[s].metadataRevision == 1
  }

  lemma ReplyDoomed(w: World, a: SessionId, b: SessionId, t: Message, m: Message)
    requires Replied(w, a, b, t, m)
    ensures DoomedMessages(w.db, a) == {m.id} && DeleteSession(w.db, map[], a).Ok?
    ensures m.id !in DeleteSession(w.db, map[], a).value.records
    ensures DeleteSession(w.db, map[], a).value.sessions == map[b := w.db.sessions[b]]
  {
    var db := w.db;
    RootAncestry(db.records, t.id);
    assert InHistory(db, b, t.id) && Retained(db, a, t.id);
    assert !Retained(db, a, m.id) && Doomed(db, a, m.id);
  }

  lemma RemoveCommits(db: Db, a: SessionId)
    requires DeleteSession(db, map[], a).Ok?
    ensures Committed(db, Remove(map[], a)) == DeleteSession(db, map[], a).value
  {
  }

  /** Deleting the first session takes the reply with it. */
  lemma ReplyRemoved(w: World, a: SessionId, b: SessionId, t: Message, m: Message)
    requires Replied(w, a, b, t, m)
    ensures
      var w' := Next(w, Remove(map[], a));
      && m.id !in w'.db.records && w'.db.sessions == map[b := w.db.sessions[b]]
      && m.id in w'.parents && w'.parents[m.id] == Some(t.id)
  {
    ReplyDoomed(w, a, b, t, m);
    RemoveCommits(w.db, a);
    var db' := DeleteSession(w.db, map[], a).value;
    assert m.id !in ParentsOf(db'.records);
  }

  lemma ForkSound(a: SessionId, b: SessionId, t: Message)
    requires t.parent.None?
    ensures Inv(Fork(a, b, t)) && Sound(Fork(a, b, t).db)
  {
    assert IsChain(Fork(a, b, t).db.records, Some(t.id), [t.id]);
  }

  /** Nothing re-checks the reply when it is linked. */
  lemma MissingLinked(w: World, b: SessionId, t: MessageId, m: MessageId)
    requires w.db.sessions.Keys == {b} && !w.db.sessions[b].active
    requires w.db.sessions[b].tip == Some(t) && w.db.sessions[b].metadataRevision == 1
    requires m !in w.db.records && m in w.parents && w.parents[m] == Some(t)
    ensures
      var link := LinkSaved(map[], SessionMeta(b, Some(m), None, None, 1), Some(t), [m]);
      Enabled(w, link) && Current(w, link) && !Sound(Next(w, link).db)
  {
    assert [m][1..] == [] && IsPath(w.parents, Some(t), [], Some(t));
    var db := Committed(w.db, LinkSaved(map[], SessionMeta(b, Some(m), None, None, 1), Some(t), [m]));
    assert db.sessions[b].tip == Some(m) && m !in db.records;
    assert !Rooted(db.records, db.sessions[b].tip);
  }

  lemma BreaksNow(w: World, step: Step)
    requires Enabled(w, step) && !Sound(Next(w, step).db)
    ensures Valid(w, [step]) && !Sound(After(w, [step]).db)
  {
    var w' := Next(w, step);
    assert [step][1..] == [] && After(w', []) == w';
  }

  lemma BreaksLater(w: World, step: Step, rest: seq<Step>)
    requires Enabled(w, step) && Valid(Next(w, step), rest) && !Sound(After(Next(w, step), rest).db)
    ensures Valid(w, [step] + rest) && !Sound(After(w, [step] + rest).db)
  {
    assert ([step] + rest)[1..] == rest;
  }

  lemma LinkedAfterRemoval(w: World, a: SessionId, b: SessionId, t: Message, m: Message)
    requires Replied(w, a, b, t, m)
    ensures Valid(w, [Remove(map[], a)] + [Reply(b, t, m)])
            && !Sound(After(w, [Remove(map[], a)] + [Reply(b, t, m)]).db)
  {
    ReplyRemoved(w, a, b, t, m);
    MissingLinked(Next(w, Remove(map[], a)), b, t.id, m.id);
    BreaksNow(Next(w, Remove(map[], a)), Reply(b, t, m));
    BreaksLater(w, Remove(map[], a), [Reply(b, t, m)]);
  }

  lemma ReplySaved(a: SessionId, b: SessionId, t: Message, m: Message)
    requires a != b && t.id != m.id && t.parent.None? && m.parent == Some(t.id)
    ensures
      var w := Fork(a, b, t);
      Enabled(w, StoreMessage(map[], m)) && Replied(Next(w, StoreMessage(map[], m)), a, b, t, m)
  {
    SavedReply(a, b, t, m);
  }

  /**
   * So the condition is needed: a reply is saved for the second session, the first is deleted, and the reply
   * is linked. This run is possible and leaves the second session with a missing tip.
   */
  lemma LinkAfterDeletionBreaks(a: SessionId, b: SessionId, t: Message, m: Message)
    requires a != b && t.id != m.id && t.parent.None? && m.parent == Some(t.id)
    ensures
      var w, steps := Fork(a, b, t), [StoreMessage(map[], m)] + ([Remove(map[], a)] + [Reply(b, t, m)]);
      && Inv(w) && Sound(w.db) && Valid(w, steps) && !Sound(After(w, steps).db)
  {
    var w := Fork(a, b, t);
    ForkSound(a, b, t);
    ReplySaved(a, b, t, m);
    LinkedAfterRemoval(Next(w, StoreMessage(map[], m)), a, b, t, m);
    BreaksLater(w, StoreMessage(map[], m), [Remove(map[], a)] + [Reply(b, t, m)]);
  }
}
