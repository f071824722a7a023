/**
 * Appending a message with a stable id so that delivery can be retried: the call
 * either links the message, finds it already linked, or finishes linking the
 * durable message a crashed call left behind.
 */
module IdempotentAppend {
  import opened Types
  import opened Database
  import opened StreamDeltas
  import opened History
  import opened MessageGraph
  import opened References
  import opened SessionStore
  import opened Turns

  datatype Request = Request(
    session: SessionId,
    content: ConversationItem,
    status: Status,
    profile: Option<string>,
    generation: Option<Generation>,
    title: Option<string>)

  datatype Outcome = Linked(message: Message, linkedNow: bool) | Failed(error: Error) | Crashed

  /** `validate_idempotent_message`. */
  predicate Matches(existing: Message, request: Request) {
    && existing.content == request.content
    && existing.status == request.status
    && existing.profile == request.profile
    && existing.generation == request.generation
  }

  /**
   * What one call does, seen from the database `at` just before it commits to `db'`; `found` says whether
   * the call started out with the message stored. It reports a new link exactly when it put the message in
   * front of the session's chain, it accepts only the durable content, and otherwise the session's history
   * is as it was. A durable message is changed by no call and dropped by none that found it; a failed call
   * may drop what it stored itself, if nothing refers to it. What a call newly stores is what it was asked for.
   */
  ghost predicate CallEffect(found: bool, at: Db, db': Db, id: MessageId, request: Request, outcome: Outcome) {
    var s := request.session;
    && Sound(at) && Sound(db')
    && (id in at.records ==>
          SameMessage(at, db', id) || (!found && outcome.Failed? && !MessageReferenced(at, id) && id !in db'.records))
    && (!found && id in db'.records ==> Views(db')[id].Ok? && Matches(Views(db')[id].value, request))
    && match outcome
       case Linked(message, true) =>
         && s in at.sessions && s in db'.sessions && !InHistory(at, s, id) && db'.sessions[s].tip == Some(id)
         && (forall chain | IsChain(at.records, at.sessions[s].tip, chain) ::
             IsChain(db'.records, Some(id), [id] + chain))
         && id in db'.records && Views(db')[id] == Ok(message)
         && Matches(message, request) && message.parent == at.sessions[s].tip
       case Linked(message, false) =>
         && found && db' == at && s in at.sessions && InHistory(at, s, id)
         && id in at.records && Views(at)[id] == Ok(message) && Matches(message, request)
       case _ =>
         && TipOf(db'.sessions, s) == TipOf(at.sessions, s)
         && (forall chain | IsChain(at.records, TipOf(at.sessions, s), chain) ::
               IsChain(db'.records, TipOf(db'.sessions, s), chain))
  }

  /**
   * The one way a call can go wrong, open only to a store that saves and links in two transactions: the
   * link commits although the message was removed after it had been saved.
   */
  predicate Dangles(at: Db, id: MessageId, outcome: Outcome) {
    outcome.Linked? && outcome.linkedNow && id !in at.records
  }

  /** Every stored message is filed under its own id. */
  ghost predicate Filed(db: Db) {
    forall id | id in db.records :: db.records[id].message.id == id
  }

  /**
   * Whatever other processes commit in between: chains stay complete and nobody else stores `id`, though it
   * may be removed. Callers know only this contract, so what they prove holds for every such interference.
   */
  method Interfere(shared: Shared, id: MessageId)
    requires Sound(shared.db) && Filed(shared.db)
    modifies shared
    ensures Sound(shared.db) && Filed(shared.db)
    ensures id in shared.db.records ==> SameMessage(old(shared.db), shared.db, id)
  {
  }

  predicate Contains(messages: seq<Message>, id: MessageId) {
    exists m | m in messages :: m.id == id
  }

  /** The first messages of a trail, as read. */
  ghost predicate ReadSoFar(store: Store, trail: seq<MessageId>, seen: seq<Message>, ahead: seq<MessageId>) {
    && |seen| <= |trail| && ahead == trail[|seen|..]
    && forall i | 0 <= i < |seen| :: trail[i] in store && store[trail[i]] == Ok(seen[i])
  }

  lemma ReadMore(store: Store, trail: seq<MessageId>, seen: seq<Message>, ahead: seq<MessageId>, page: seq<Message>)
    requires ReadSoFar(store, trail, seen, ahead) && |page| <= |ahead|
    requires forall i | 0 <= i < |page| :: ahead[i] in store && store[ahead[i]] == Ok(page[i])
    ensures ReadSoFar(store, trail, seen + page, ahead[|page|..])
  {
    var all := seen + page;
    assert ahead[|page|..] == trail[|all|..];
    forall i | 0 <= i < |all|
      ensures trail[i] in store && store[trail[i]] == Ok(all[i])
    {
      if i >= |seen| {
        assert trail[i] == ahead[i - |seen|];
      }
    }
  }

  predicate OnTrail(store: Store, tip: Option<MessageId>, target: MessageId) {
    exists id | id in Trail(store, tip, {}) :: id in store && store[id].Ok? && store[id].value.id == target
  }

  lemma ContainsMore(a: seq<Message>, b: seq<Message>, target: MessageId)
    ensures Contains(a + b, target) <==> Contains(a, target) || Contains(b, target)
  {
    assert forall m :: m in a + b <==> m in a || m in b;
  }

  /** A message among those read is on the trail, and in the whole if the whole can be read. */
  lemma FoundOnTrail(store: Store, tip: Option<MessageId>, seen: seq<Message>, rest: Result<seq<Message>, Error>,
                     target: MessageId)
    requires |seen| <= |Trail(store, tip, {})| && Contains(seen, target)
    requires forall i | 0 <= i < |seen| ::
               Trail(store, tip, {})[i] in store && store[Trail(store, tip, {})[i]] == Ok(seen[i])
    requires Walk(store, tip, {}) == Prepend(seen, rest)
    ensures OnTrail(store, tip, target)
    ensures Walk(store, tip, {}).Ok? ==> Contains(Walk(store, tip, {}).value, target)
  {
    var trail := Trail(store, tip, {});
    var i :| 0 <= i < |seen| && seen[i].id == target;
    assert trail[i] in trail && store[trail[i]] == Ok(seen[i]);
    if rest.Ok? {
      ContainsMore(seen, rest.value, target);
    }
  }

  /** `message_is_in_history`, page by page. */
  method MessageIsInHistory(store: Store, tip: Option<MessageId>, target: MessageId) returns (r: Result<bool, Error>)
    ensures match Walk(store, tip, {})
            case Ok(messages) => r == Ok(Contains(messages, target))
            case Err(_) => r != Ok(false)
    ensures r == Ok(true) ==> OnTrail(store, tip, target)
  {
    var cursor := new HistoryCursor(store, map[], tip);
    assert Merged(store, map[]) == store;
    var seen: seq<Message> := [];
    ghost var trail := cursor.Ahead();
    while true
      invariant fresh(cursor) && cursor.store == store && cursor.overlay == map[] && cursor.Valid()
      invariant Walk(store, tip, {}) == Prepend(seen, cursor.Remaining())
      invariant ReadSoFar(store, trail, seen, cursor.Ahead()) && !Contains(seen, target)
      decreases cursor.View().Keys - cursor.visited
    {
      ghost var ahead := cursor.Ahead();
      var page := cursor.NextPage();
      if page.Err? {
        return Err(page.error);
      }
      if page.value.None? {
        return Ok(false);
      }
      PrependTwice(Walk(store, tip, {}), seen, page.value.value, cursor.Remaining());
      ReadMore(store, trail, seen, ahead, page.value.value);
      ContainsMore(seen, page.value.value, target);
      seen := seen + page.value.value;
      if exists m | m in page.value.value :: m.id == target {
        FoundOnTrail(store, tip, seen, cursor.Remaining(), target);
        return Ok(true);
      }
    }
  }

  /** What a walk reads is part of the history the recursive query collects. */
  lemma {:induction false} TrailInAncestry(db: Db, cursor: Option<MessageId>, visited: set<MessageId>)
    ensures forall id | id in Trail(Views(db), cursor, visited) :: id in Ancestry(db.records, cursor, visited)
    decreases db.records.Keys - visited
  {
    if cursor.Some? && cursor.value !in visited && cursor.value in db.records && Views(db)[cursor.value].Ok? {
      assert Views(db)[cursor.value].value.parent == db.records[cursor.value].message.parent;
      TrailInAncestry(db, db.records[cursor.value].message.parent, visited + {cursor.value});
    }
  }

  lemma FoundInHistory(db: Db, s: SessionId, id: MessageId)
    requires Filed(db) && OnTrail(Views(db), TipOf(db.sessions, s), id)
    ensures InHistory(db, s, id)
  {
    TrailInAncestry(db, TipOf(db.sessions, s), {});
  }

  lemma {:induction false} WalkOfChain(db: Db, cursor: Option<MessageId>, chain: seq<MessageId>,
                                       visited: set<MessageId>)
    requires Filed(db) && IsChain(db.records, cursor, chain) && Walk(Views(db), cursor, visited).Ok?
    ensures |Walk(Views(db), cursor, visited).value| == |chain|
    ensures forall i | 0 <= i < |chain| :: Walk(Views(db), cursor, visited).value[i].id == chain[i]
    decreases |chain|
  {
    if chain != [] {
      WalkOfChain(db, db.records[chain[0]].message.parent, chain[1..], visited + {chain[0]});
    }
  }

  /** When the history can be read, reading it and the recursive query agree. */
  lemma HistorySearchExact(db: Db, s: SessionId, id: MessageId)
    requires Sound(db) && Filed(db) && s in db.sessions && HistoryOf(db, s).Ok?
    ensures Contains(HistoryOf(db, s).value, id) <==> InHistory(db, s, id)
  {
    var tip := db.sessions[s].tip;
    assert Rooted(db.records, tip);
    var chain :| IsChain(db.records, tip, chain);
    WalkOfChain(db, tip, chain, {});
    ChainIsAncestry(db.records, tip, chain, {});
    var messages := HistoryOf(db, s).value;
    if InHistory(db, s, id) {
      var i :| 0 <= i < |chain| && chain[i] == id;
      assert messages[i] in messages;
    }
    if Contains(messages, id) {
      var i :| 0 <= i < |messages| && messages[i].id == id;
      assert chain[i] in chain;
    }
  }

  /** A stored message whose parent is the tip can be linked in front of it. */
  lemma LinkAtTip(at: Db, db': Db, s: SessionId, id: MessageId)
    requires Sound(at) && s in at.sessions && id in at.records && at.records[id].message.parent == at.sessions[s].tip
    requires db'.records.Keys == at.records.Keys && forall k | k in at.records ::
               db'.records[k].message == at.records[k].message
    ensures !InHistory(at, s, id)
    ensures forall chain | IsChain(at.records, at.sessions[s].tip, chain) ::
              IsChain(db'.records, Some(id), [id] + chain)
  {
    assert Rooted(at.records, at.sessions[s].tip);
    var own :| IsChain(at.records, at.sessions[s].tip, own);
    ChainIsAncestry(at.records, at.sessions[s].tip, own, {});
    ChainNotBehindItself(at.records, id, own);
    forall chain | IsChain(at.records, at.sessions[s].tip, chain)
      ensures IsChain(db'.records, Some(id), [id] + chain)
    {
      ChainFrame(at.records, db'.records, at.sessions[s].tip, chain);
      assert ([id] + chain)[1..] == chain;
    }
  }

  /** This runtime may write the session, and it still is at the tip and the revision that were read. */
  predicate Unmoved(at: Db, tokens: Tokens, s: SessionId, tip: Option<MessageId>, revision: nat) {
    && AssertOwner(at.sessions, tokens, s).Ok? && s in at.sessions
    && at.sessions[s].tip == tip && at.sessions[s].metadataRevision == revision
  }

  /** This runtime may write the session, but another tip has been put there. */
  predicate Overtaken(at: Db, tokens: Tokens, s: SessionId, tip: Option<MessageId>) {
    AssertOwner(at.sessions, tokens, s).Ok? && !(s in at.sessions && at.sessions[s].tip == tip)
  }

  /** What clean-up leaves. */
  function Cleaned(at: Db, tokens: Tokens, id: MessageId): (r: Db) {
    var cleaned := DeleteUnreferenced(at, tokens, id);
    if cleaned.Ok? then cleaned.value else at
  }

  /**
   * Linking a durable message: the recovery path and the second half of a two-step append. The message
   * may be gone by now; only `requireMessage` makes the link notice.
   */
  method LinkDurableMessage(p: Process, meta: SessionMeta, message: Message, request: Request, requireMessage: bool,
                            ghost found: bool)
    returns (outcome: Outcome)
    requires Sound(p.shared.db) && meta.id == request.session && meta.tip == Some(message.id)
    requires Matches(message, request)
    requires message.id in p.shared.db.records ==> Views(p.shared.db)[message.id] == Ok(message)
    modifies p.shared
    ensures if Dangles(old(p.shared.db), message.id, outcome) then !requireMessage && !Sound(p.shared.db)
            else CallEffect(found, old(p.shared.db), p.shared.db, message.id, request, outcome)
    ensures outcome.Failed? ==> p.shared.db == old(p.shared.db)
    ensures !outcome.Crashed? && (outcome.Linked? ==> outcome == Linked(message, true))
    ensures outcome.Linked? <==>
              && Unmoved(old(p.shared.db), p.tokens, meta.id, message.parent, meta.revision)
              && (requireMessage ==> message.id in old(p.shared.db.records))
    ensures outcome.Linked? ==> Updated(old(p.shared.db), p.shared.db, meta)
    ensures Overtaken(old(p.shared.db), p.tokens, meta.id, message.parent) ==> outcome == Failed(TipChanged)
  {
    var db := p.shared.db;
    var updated := Update(db, p.tokens, meta, Some(message.parent), requireMessage);
    UpdateExact(db, p.tokens, meta, Some(message.parent), requireMessage);
    if updated.Err? {
      return Failed(updated.error);
    }
    if !updated.value.1 {
      return Failed(TipChanged);
    }
    p.shared.db := updated.value.0;
    if message.id in db.records {
      LinkAtTip(db, p.shared.db, request.session, message.id);
      LinkedSound(db, p.tokens, meta, message.id, message.parent, requireMessage);
    } else {
      assert !Rooted(p.shared.db.records, p.shared.db.sessions[meta.id].tip);
    }
    outcome := Linked(message, true);
  }

  lemma LinkedSound(db: Db, tokens: Tokens, meta: SessionMeta, id: MessageId, parent: Option<MessageId>,
                    requireMessage: bool)
    requires Sound(db) && id in db.records && db.records[id].message.parent == parent && meta.tip == Some(id)
    requires Update(db, tokens, meta, Some(parent), requireMessage).Ok?
    requires Update(db, tokens, meta, Some(parent), requireMessage).value.1
    ensures Sound(Update(db, tokens, meta, Some(parent), requireMessage).value.0)
  {
    assert Rooted(db.records, db.sessions[meta.id].tip);
    var chain :| IsChain(db.records, parent, chain);
    assert ([id] + chain)[1..] == chain;
    assert IsChain(db.records, Some(id), [id] + chain);
    UpdateSound(db, tokens, meta, Some(parent), requireMessage);
  }

  function Fresh(id: MessageId, request: Request): (r: NewMessage) {
    NewMessage(id, request.content, request.status, request.profile, request.generation)
  }

  function FreshMessage(id: MessageId, parent: Option<MessageId>, request: Request): (r: Message) {
    Message(id, parent, request.content, request.status, request.profile, request.generation)
  }

  lemma CleanedKeepsChains(db: Db, tokens: Tokens, id: MessageId, s: SessionId)
    requires Sound(db) && DeleteUnreferenced(db, tokens, id).Ok?
    ensures
      var db' := DeleteUnreferenced(db, tokens, id).value;
      && Sound(db') && TipOf(db'.sessions, s) == TipOf(db.sessions, s)
      && (id in db.records ==> SameMessage(db, db', id) || (!MessageReferenced(db, id) && id !in db'.records))
      && (forall chain | IsChain(db.records, TipOf(db.sessions, s), chain) ::
          IsChain(db'.records, TipOf(db'.sessions, s), chain))
  {
    DeleteUnreferencedSafe(db, tokens, id);
    var db' := DeleteUnreferenced(db, tokens, id).value;
    forall chain | IsChain(db.records, TipOf(db.sessions, s), chain)
      ensures IsChain(db'.records, TipOf(db.sessions, s), chain)
    {
      if s in db.sessions {
        DropKeepsChain(db, tokens, id, s, chain);
      }
    }
  }

  /** A failed link drops the message again unless some session refers to it. */
  method CleanUp(p: Process, id: MessageId, request: Request, ghost at: Db, error: Error) returns (outcome: Outcome)
    requires p.shared.db == at && Sound(at)
    requires id in at.records ==> Views(at)[id].Ok? && Matches(Views(at)[id].value, request)
    modifies p.shared
    ensures CallEffect(false, at, p.shared.db, id, request, outcome) && outcome == Failed(error)
    ensures p.shared.db == Cleaned(at, p.tokens, id)
  {
    var db := p.shared.db;
    var cleaned := DeleteUnreferenced(db, p.tokens, id);
    if cleaned.Ok? {
      CleanedKeepsChains(db, p.tokens, id, request.session);
      p.shared.db := cleaned.value;
    }
    outcome := Failed(error);
  }

  function FreshPlan(read: SessionMeta, id: MessageId, request: Request): (r: LinkRequest)
    ensures r.messages == [FreshMessage(id, read.tip, request)]
    ensures r.session.id == read.id && r.session.revision == read.revision && r.expected == read.tip
    ensures r.session.tip == Some(id)
    ensures r.session.title
         == if read.tip.None? && read.title.None? && request.title.Some? then request.title else read.title
    ensures r.session.model == if request.generation.Some? then Some(request.generation.value.model) else read.model
  {
    var plan := PlanAppend(read, read.tip, [Fresh(id, request)], request.title, None).value;
    assert Turns.Linked(read.tip, [Fresh(id, request)]) == [FreshMessage(id, read.tip, request)];
    assert plan.messages[..0] == [] && LastGeneration([]) == None;
    plan
  }

  lemma AtomicStored(at: Db, tokens: Tokens, read: SessionMeta, id: MessageId, request: Request, db': Db)
    requires id !in at.records && SaveLinked(at, tokens, FreshPlan(read, id, request)) == Ok((db', true))
    ensures id in db'.records && Views(db')[id] == Ok(FreshMessage(id, read.tip, request))
    ensures read.id in at.sessions && at.sessions[read.id].tip == read.tip
    ensures read.id in db'.sessions && db'.sessions[read.id].tip == Some(id)
  {
    var message := FreshMessage(id, read.tip, request);
    assert LinkMessages(at, tokens, read.id, [message]) == WriteMessageRecord(at, tokens, Some(read.id), message) by {
      assert [message][1..] == [];
    }
  }

  lemma AtomicEffect(at: Db, tokens: Tokens, read: SessionMeta, id: MessageId, request: Request, db': Db)
    requires Sound(at) && id !in at.records && read.id == request.session
    requires SaveLinked(at, tokens, FreshPlan(read, id, request)) == Ok((db', true))
    ensures CallEffect(false, at, db', id, request, Outcome.Linked(FreshMessage(id, read.tip, request), true))
  {
    var s, message := read.id, FreshMessage(id, read.tip, request);
    AppendAllOrNothing(at, tokens, read, read.tip, [Fresh(id, request)], request.title, None);
    AtomicStored(at, tokens, read, id, request, db');
    FreshNotInHistory(at, s, id);
    forall chain | IsChain(at.records, at.sessions[s].tip, chain)
      ensures IsChain(db'.records, Some(id), [id] + chain)
    {
      assert Extended(chain, [message]) == [id] + chain;
    }
  }

  lemma FreshPlanCommits(at: Db, tokens: Tokens, read: SessionMeta, id: MessageId, request: Request)
    requires Sound(at) && id !in at.records
    ensures
      var r := SaveLinked(at, tokens, FreshPlan(read, id, request));
      && (r.Ok? && r.value.1 <==> Unmoved(at, tokens, read.id, read.tip, read.revision))
      && (r.Ok? && !r.value.1 <==> Overtaken(at, tokens, read.id, read.tip))
  {
    var plan := FreshPlan(read, id, request);
    assert forall m | m in plan.messages :: m.id == id;
    FreshAppendCommits(at, tokens, plan);
  }

  method AppendAtomically(p: Process, read: SessionMeta, id: MessageId, request: Request) returns (outcome: Outcome)
    requires Sound(p.shared.db) && id !in p.shared.db.records && read.id == request.session
    modifies p.shared
    ensures CallEffect(false, old(p.shared.db), p.shared.db, id, request, outcome)
    ensures outcome.Linked? ==> outcome.linkedNow
    ensures !outcome.Crashed?
    ensures outcome.Linked? <==> Unmoved(old(p.shared.db), p.tokens, read.id, read.tip, read.revision)
    ensures Overtaken(old(p.shared.db), p.tokens, read.id, read.tip) ==>
              outcome == Failed(TipChanged) && p.shared.db == Cleaned(old(p.shared.db), p.tokens, id)
    ensures outcome.Linked? ==>
              SaveLinked(old(p.shared.db), p.tokens, FreshPlan(read, id, request)) == Ok((p.shared.db, true))
  {
    var at := p.shared.db;
    FreshPlanCommits(at, p.tokens, read, id, request);
    var linked := SaveLinkedTransaction(p, FreshPlan(read, id, request));
    if linked.Err? {
      return Failed(linked.error);
    }
    if !linked.value {
      outcome := CleanUp(p, id, request, at, TipChanged);
      return;
    }
    AtomicEffect(at, p.tokens, read, id, request, p.shared.db);
    outcome := Outcome.Linked(FreshMessage(id, read.tip, request), true);
  }

  lemma SavedViews(at: Db, db': Db, message: Message, session: Option<SessionId>)
    requires db'.records == at.records[message.id := Record(session, message)] && db'.logs == at.logs - {message.id}
    requires Filed(at)
    ensures Filed(db') && Views(db')[message.id] == Ok(message)
  {
  }

  /** A message saved and not linked yet leaves every session as it was. */
  lemma SavedUnlinked(at: Db, tokens: Tokens, message: Message, request: Request)
    requires Sound(at) && Filed(at) && message.id !in at.records && SaveMessage(at, tokens, message).Ok?
    ensures
      var db' := SaveMessage(at, tokens, message).value;
      && Sound(db') && Filed(db') && message.id in db'.records && Views(db')[message.id] == Ok(message)
      && (Matches(message, request) ==> CallEffect(false, at, db', message.id, request, Crashed))
  {
    var db' := SaveMessage(at, tokens, message).value;
    SaveKeepsSound(at, tokens, message);
    var bumped, session := SaveShape(at, tokens, message);
    SavedViews(at, db', message, session);
    forall chain | IsChain(at.records, TipOf(at.sessions, request.session), chain)
      ensures IsChain(db'.records, TipOf(at.sessions, request.session), chain)
    {
      ChainFrame(at.records, db'.records, TipOf(at.sessions, request.session), chain);
    }
  }

  /**
   * Saving the message first and linking it after, with a crash or other commits in between. `stored` is what
   * the save left and `at` what the link found.
   */
  method AppendInTwoSteps(p: Process, read: SessionMeta, id: MessageId, request: Request, crash: bool)
    returns (outcome: Outcome, ghost stored: Db, ghost at: Db)
    requires Sound(p.shared.db) && Filed(p.shared.db) && id !in p.shared.db.records && read.id == request.session
    modifies p.shared
    ensures if Dangles(at, id, outcome) then !Sound(p.shared.db)
            else CallEffect(false, at, p.shared.db, id, request, outcome)
    ensures outcome.Linked? ==> outcome.linkedNow
    ensures
      var saved := SaveMessage(old(p.shared.db), p.tokens, FreshMessage(id, read.tip, request));
      match saved
      case Err(e) => outcome == Failed(e) && p.shared.db == at == old(p.shared.db)
      case Ok(db) =>
        && stored == db && (outcome.Crashed? <==> crash) && (crash ==> p.shared.db == stored)
        && (outcome.Linked? <==> !crash && Unmoved(at, p.tokens, read.id, read.tip, read.revision))
        && (outcome.Linked? ==> Updated(at, p.shared.db, FreshPlan(read, id, request).session))
        && (!crash && Overtaken(at, p.tokens, read.id, read.tip) ==>
              outcome == Failed(TipChanged) && p.shared.db == Cleaned(at, p.tokens, id))
  {
    stored, at := p.shared.db, p.shared.db;
    var message := FreshMessage(id, read.tip, request);
    var saved := References.Save(p, message);
    if saved.Err? {
      return Failed(saved.error), stored, at;
    }
    SavedUnlinked(at, p.tokens, message, request);
    stored := p.shared.db;
    if crash {
      return Crashed, stored, at;
    }
    Interfere(p.shared, id);
    at := p.shared.db;
    assert id in at.records ==> Views(at)[id] == Ok(message);
    outcome := LinkDurableMessage(p, FreshPlan(read, id, request).session, message, request, false, false);
    if outcome == Failed(TipChanged) {
      outcome := CleanUp(p, id, request, at, TipChanged);
    }
  }

  /** The durable message, as it reads, is what the request asks for. */
  predicate Durable(db: Db, id: MessageId, request: Request) {
    && id in db.records && Views(db)[id].Ok?
    && var m := Views(db)[id].value;
       && m.content == request.content && m.status == request.status
       && m.profile == request.profile && m.generation == request.generation
  }

  /** The message is linked already, as far as the session can be read. */
  predicate FoundLinked(db: Db, s: SessionId, id: MessageId) {
    TipOf(db.sessions, s) == Some(id) || (HistoryOf(db, s).Ok? && InHistory(db, s, id))
  }

  /**
   * `append_idempotent_message`; `first` is the database its first write found, `stored` what a separate save
   * left and `at` what its last transaction found. A store that saves and links in one transaction (`atomic`)
   * always has the effect of one call; any other has it exactly when the message is still stored when the link
   * commits.
   *
   * A retry for a linked message returns it and changes nothing. A durable message that is not linked yet is
   * linked, if its parent is the tip that was read, exactly when the session has not moved since and the message
   * is still there. A new message is linked exactly when the session has not moved since it was read.
   */
  method AppendMessageIdempotent(p: Process, id: MessageId, request: Request, atomic: bool, crash: bool)
    returns (outcome: Outcome, ghost first: Db, ghost stored: Db, ghost at: Db)
    requires Sound(p.shared.db) && Filed(p.shared.db)
    modifies p.shared
    ensures if !atomic && Dangles(at, id, outcome) then !Sound(p.shared.db)
            else CallEffect(id in old(p.shared.db.records), at, p.shared.db, id, request, outcome)
    ensures id in old(p.shared.db.records) && id in at.records ==> SameMessage(old(p.shared.db), at, id)
    ensures id in old(p.shared.db.records) ==> SameMessage(at, p.shared.db, id) && !Dangles(at, id, outcome)
    ensures outcome.Crashed? ==> crash && !atomic && id !in old(p.shared.db.records)
    ensures outcome.Linked? && outcome.linkedNow ==>
              && MetaOf(old(p.shared.db), request.session).Some?
              && var read := MetaOf(old(p.shared.db), request.session).value;
                 if id in old(p.shared.db.records) then Updated(at, p.shared.db, read.(tip := Some(id)))
                 else if atomic
                 then SaveLinked(at, p.tokens, FreshPlan(read, id, request)) == Ok((p.shared.db, true))
                 else Updated(at, p.shared.db, FreshPlan(read, id, request).session)
    ensures
      var db, s := old(p.shared.db), request.session;
      id in db.records ==>
        if Views(db)[id].Err? then outcome == Failed(Views(db)[id].error) && p.shared.db == db
        else if !Durable(db, id, request) then outcome == Failed(ContentMismatch) && p.shared.db == db
        else if s !in db.sessions then outcome == Failed(SessionNotFound) && p.shared.db == db
        else if FoundLinked(db, s, id) then outcome == Linked(Views(db)[id].value, false) && p.shared.db == db
        else if HistoryOf(db, s).Err? then outcome != Linked(Views(db)[id].value, true) && p.shared.db == db
        else if Views(db)[id].value.parent != db.sessions[s].tip
        then outcome == Failed(DurableParentMismatch) && p.shared.db == db
        else outcome == Linked(Views(db)[id].value, true) <==>
             && Unmoved(at, p.tokens, s, db.sessions[s].tip, db.sessions[s].metadataRevision)
             && id in at.records
    ensures
      var db, s := old(p.shared.db), request.session;
      id !in db.records ==>
        if s !in db.sessions then outcome == Failed(SessionNotFound) && p.shared.db == db
        else
          var unmoved := Unmoved(at, p.tokens, s, db.sessions[s].tip, db.sessions[s].metadataRevision);
          var saved := SaveMessage(first, p.tokens, FreshMessage(id, db.sessions[s].tip, request));
          var overtaken := Overtaken(at, p.tokens, s, db.sessions[s].tip);
          if !atomic && saved.Err? then outcome == Failed(saved.error) && p.shared.db == at == first
          else if !atomic && crash then outcome == Crashed && p.shared.db == stored == saved.value
          else
            && (!atomic ==> stored == saved.value) && (outcome.Linked? <==> unmoved)
            && (overtaken ==> outcome == Failed(TipChanged) && p.shared.db == Cleaned(at, p.tokens, id))
  {
    var db := p.shared.db;
    first, stored, at := db, db, db;
    var read := MetaOf(db, request.session);
    if id !in db.records {
      if read.None? {
        return Failed(SessionNotFound), first, stored, at;
      }
      Interfere(p.shared, id);
      first := p.shared.db;
      if atomic {
        at := p.shared.db;
        outcome := AppendAtomically(p, read.value, id, request);
      } else {
        outcome, stored, at := AppendInTwoSteps(p, read.value, id, request, crash);
      }
      return;
    }
    var existing := ReadMessage(db.records[id].message, LogOf(db, id));
    assert Views(db)[id] == existing;
    if existing.Err? {
      return Failed(existing.error), first, stored, at;
    }
    if !Matches(existing.value, request) {
      return Failed(ContentMismatch), first, stored, at;
    }
    if read.None? {
      return Failed(SessionNotFound), first, stored, at;
    }
    if read.value.tip == Some(id) {
      return Linked(existing.value, false), first, stored, at;
    }
    var found := MessageIsInHistory(Views(db), read.value.tip, id);
    if HistoryOf(db, request.session).Ok? {
      HistorySearchExact(db, request.session, id);
    }
    if found.Err? {
      return Failed(found.error), first, stored, at;
    }
    if found.value {
      FoundInHistory(db, request.session, id);
      return Linked(existing.value, false), first, stored, at;
    }
    if read.value.tip != existing.value.parent {
      return Failed(DurableParentMismatch), first, stored, at;
    }
    Interfere(p.shared, id);
    at := p.shared.db;
    assert id in at.records ==> Views(at)[id] == existing;
    outcome := LinkDurableMessage(p, read.value.(tip := Some(id)), existing.value, request, true, true);
  }

  /** A history of calls for one id: each starts from `entry`, its last transaction finds `at` and leaves `left`. */
  datatype Call = Call(entry: Db, at: Db, left: Db, request: Request, outcome: Outcome)

  /** Meanwhile nobody else rewrites or removes the durable message or moves it in or out of the history. */
  predicate Quiet(db: Db, at: Db, id: MessageId, s: SessionId) {
    && (id in db.records ==> SameMessage(db, at, id))
    && (InHistory(db, s, id) <==> InHistory(at, s, id))
  }

  ghost predicate IsCall(start: Db, c: Call, id: MessageId, s: SessionId) {
    && c.request.session == s && Quiet(start, c.entry, id, s) && Quiet(c.entry, c.at, id, s)
    && CallEffect(id in c.entry.records, c.at, c.left, id, c.request, c.outcome)
  }

  ghost predicate Calls(start: Db, calls: seq<Call>, id: MessageId, s: SessionId)
    decreases |calls|
  {
    calls == [] || (IsCall(start, calls[0], id, s) && Calls(calls[0].left, calls[1..], id, s))
  }

  function LeftBy(start: Db, calls: seq<Call>): (r: Db) {
    if calls == [] then start else calls[|calls| - 1].left
  }

  function NewLinks(calls: seq<Call>): (r: nat)
    decreases |calls|
  {
    if calls == [] then 0
    else (if calls[0].outcome.Linked? && calls[0].outcome.linkedNow then 1 else 0) + NewLinks(calls[1..])
  }

  /** One call moves the message into the history exactly when it says so. */
  lemma CallMembership(found: bool, at: Db, left: Db, id: MessageId, request: Request, outcome: Outcome)
    requires CallEffect(found, at, left, id, request, outcome)
    ensures outcome.Linked? && outcome.linkedNow
            ==> !InHistory(at, request.session, id) && InHistory(left, request.session, id)
    ensures !(outcome.Linked? && outcome.linkedNow) ==>
              (InHistory(at, request.session, id) <==> InHistory(left, request.session, id))
  {
    var s := request.session;
    if outcome.Linked? && outcome.linkedNow {
      assert left.sessions[s].tip == Some(id);
    } else if s in at.sessions && !outcome.Linked? {
      assert Rooted(at.records, at.sessions[s].tip);
      var chain :| IsChain(at.records, at.sessions[s].tip, chain);
      ChainIsAncestry(at.records, at.sessions[s].tip, chain, {});
      ChainIsAncestry(left.records, TipOf(left.sessions, s), chain, {});
    }
  }

  /** However often the call is retried, and wherever earlier calls crashed, the message is linked at most once. */
  lemma {:induction false} LinkedAtMostOnce(start: Db, calls: seq<Call>, id: MessageId, s: SessionId)
    requires Calls(start, calls, id, s)
    ensures NewLinks(calls) <= 1
    ensures NewLinks(calls) == 1 <==> !InHistory(start, s, id) && InHistory(LeftBy(start, calls), s, id)
    ensures InHistory(start, s, id) ==> InHistory(LeftBy(start, calls), s, id)
    decreases |calls|
  {
    if calls != [] {
      var c := calls[0];
      CallMembership(id in c.entry.records, c.at, c.left, id, c.request, c.outcome);
      LinkedAtMostOnce(calls[0].left, calls[1..], id, s);
    }
  }

  /** What one call means for the content: a durable message stays, and what is newly stored is what was asked for. */
  ghost predicate ContentKept(start: Db, c: Call, id: MessageId) {
    && (id in start.records ==>
          && id in c.left.records && Views(c.left)[id] == Views(start)[id]
          && (c.outcome.Linked? ==> Views(start)[id] == Ok(c.outcome.message)))
    && (c.outcome.Linked? ==> Matches(c.outcome.message, c.request))
    && (id !in c.entry.records && id in c.left.records ==>
          Views(c.left)[id].Ok? && Matches(Views(c.left)[id].value, c.request))
  }

  lemma CallKeepsContent(start: Db, c: Call, id: MessageId, s: SessionId)
    requires IsCall(start, c, id, s)
    ensures ContentKept(start, c, id)
  {
    if id in start.records {
      assert Views(c.entry)[id] == Views(start)[id];
      assert Views(c.at)[id] == Views(start)[id];
      assert SameMessage(c.at, c.left, id);
      assert Views(c.left)[id] == Views(c.at)[id];
    }
  }

  ghost predicate ContentsKept(start: Db, calls: seq<Call>, id: MessageId)
    decreases |calls|
  {
    calls == [] || (ContentKept(start, calls[0], id) && ContentsKept(calls[0].left, calls[1..], id))
  }

  lemma {:induction false} CallsKeepContent(start: Db, calls: seq<Call>, id: MessageId, s: SessionId)
    requires Calls(start, calls, id, s)
    ensures ContentsKept(start, calls, id)
    decreases |calls|
  {
    if calls != [] {
      CallKeepsContent(start, calls[0], id, s);
      CallsKeepContent(calls[0].left, calls[1..], id, s);
    }
  }

  lemma {:induction false} ContentStays(start: Db, calls: seq<Call>, id: MessageId, k: nat)
    requires ContentsKept(start, calls, id) && k < |calls| && id in start.records
    ensures id in calls[k].left.records && Views(calls[k].left)[id] == Views(start)[id]
    ensures calls[k].outcome.Linked? ==>
              && Views(start)[id] == Ok(calls[k].outcome.message)
              && Matches(calls[k].outcome.message, calls[k].request)
    decreases |calls|
  {
    if k > 0 {
      ContentStays(calls[0].left, calls[1..], id, k - 1);
    }
  }

  /**
   * From the first moment the message is durable, linked or left behind by a crash, every call leaves it as
   * it is, and every call that succeeds returns that very message and was asked for its content.
   */
  lemma FirstContentWins(start: Db, calls: seq<Call>, id: MessageId, s: SessionId, k: nat)
    requires Calls(start, calls, id, s) && k < |calls| && id in start.records
    ensures id in calls[k].left.records && Views(calls[k].left)[id] == Views(start)[id]
    ensures calls[k].outcome.Linked? ==>
              Views(start)[id] == Ok(calls[k].outcome.message) && Durable(start, id, calls[k].request)
  {
    CallsKeepContent(start, calls, id, s);
    ContentStays(start, calls, id, k);
  }

  lemma {:induction false} ContentFromFirst(start: Db, calls: seq<Call>, id: MessageId, i: nat, k: nat)
    requires ContentsKept(start, calls, id) && i < k < |calls|
    requires id !in calls[i].entry.records && id in calls[i].left.records && calls[k].outcome.Linked?
    ensures Views(calls[i].left)[id] == Ok(calls[k].outcome.message)
    ensures Matches(calls[k].outcome.message, calls[i].request) && Matches(calls[k].outcome.message, calls[k].request)
    decreases |calls|
  {
    if i > 0 {
      ContentFromFirst(calls[0].left, calls[1..], id, i - 1, k - 1);
    } else {
      ContentStays(calls[0].left, calls[1..], id, k - 1);
    }
  }

  /**
   * Whichever call first stores the message decides: its request is what the message says, and every later
   * call that succeeds, for whatever request, returns that message.
   */
  lemma FirstRequestWins(start: Db, calls: seq<Call>, id: MessageId, s: SessionId, i: nat, k: nat)
    requires Calls(start, calls, id, s) && i < k < |calls|
    requires id !in calls[i].entry.records && id in calls[i].left.records && calls[k].outcome.Linked?
    ensures Views(calls[i].left)[id] == Ok(calls[k].outcome.message)
    ensures Durable(calls[i].left, id, calls[i].request) && Durable(calls[i].left, id, calls[k].request)
  {
    CallsKeepContent(start, calls, id, s);
    ContentFromFirst(start, calls, id, i, k);
  }
}
