/**
 * Appending to a session: messages are linked after the tip in one transaction, or
 * saved one by one and then linked; and rolling an append back.
 */
module Turns {
  import opened Types
  import opened Database
  import opened StreamDeltas
  import opened MessageGraph
  import opened References
  import opened SessionStore

  datatype NewMessage = NewMessage(
    id: MessageId,
    content: ConversationItem,
    status: Status,
    profile: Option<string>,
    generation: Option<Generation>)

  /** Gives each new message the one before it as parent. */
  function Linked(parent: Option<MessageId>, news: seq<NewMessage>): (r: seq<Message>)
    ensures |r| == |news|
    decreases |news|
  {
    if news == [] then [] else
    var n := news[0];
    [Message(n.id, parent, n.content, n.status, n.profile, n.generation)] + Linked(Some(n.id), news[1..])
  }

  predicate IsLinked(parent: Option<MessageId>, messages: seq<Message>)
    decreases |messages|
  {
    messages == [] || (messages[0].parent == parent && IsLinked(Some(messages[0].id), messages[1..]))
  }

  lemma {:induction false} LinkedIsLinked(parent: Option<MessageId>, news: seq<NewMessage>)
    ensures IsLinked(parent, Linked(parent, news))
    decreases |news|
  {
    if news != [] {
      LinkedIsLinked(Some(news[0].id), news[1..]);
    }
  }

  /** The last generation that any of the messages carries. */
  function LastGeneration(messages: seq<Message>): (r: Option<Generation>)
    decreases |messages|
  {
    if messages == [] then None
    else if messages[|messages| - 1].generation.Some? then messages[|messages| - 1].generation
    else LastGeneration(messages[..|messages| - 1])
  }

  /** What `append_messages` asks for, computed from the session as the caller read it. */
  datatype LinkRequest = LinkRequest(
    session: SessionMeta,
    expected: Option<MessageId>,
    messages: seq<Message>,
    consumed: Option<int>)

  function PlanAppend(read: SessionMeta, expected: Option<MessageId>, news: seq<NewMessage>, title: Option<string>,
                      consumed: Option<int>): (r: Result<LinkRequest, Error>)
    ensures r.Ok? ==> r.value.expected == read.tip && r.value.session.id == read.id && r.value.messages != []
    ensures r.Ok? ==> r.value.messages == Linked(read.tip, news) && r.value.consumed == consumed
    ensures r.Ok? ==> r.value.session.tip == Some(r.value.messages[|r.value.messages| - 1].id)
  {
    if read.tip != expected then Err(TipChanged)
    else if news == [] then Err(NothingToAppend)
    else
      var messages := Linked(read.tip, news);
      var generation := LastGeneration(messages);
      var session := read.(
        tip := Some(messages[|messages| - 1].id),
        model := if generation.Some? then Some(generation.value.model) else read.model,
        title := if read.tip.None? && read.title.None? && title.Some? then title else read.title);
      Ok(LinkRequest(session, read.tip, messages, consumed))
  }

  /** Each message of an append: what was given, behind the one before it. */
  lemma {:induction false} LinkedPlaces(parent: Option<MessageId>, news: seq<NewMessage>, i: nat)
    requires i < |news|
    ensures
      var m := Linked(parent, news)[i];
      && m.id == news[i].id && m.parent == (if i == 0 then parent else Some(news[i - 1].id))
      && m.content == news[i].content && m.status == news[i].status
      && m.profile == news[i].profile && m.generation == news[i].generation
    decreases i
  {
    if i > 0 {
      LinkedPlaces(Some(news[0].id), news[1..], i - 1);
    }
  }

  /** No message behind place `i` carries a generation. */
  predicate LastAt(messages: seq<Message>, i: nat) {
    i < |messages| && messages[i].generation.Some? && forall j | i < j < |messages| :: messages[j].generation.None?
  }

  lemma {:induction false} LastGenerationAt(messages: seq<Message>)
    ensures LastGeneration(messages).None? <==> forall i | 0 <= i < |messages| :: messages[i].generation.None?
    ensures forall i: nat | LastAt(messages, i) :: LastGeneration(messages) == messages[i].generation
    decreases |messages|
  {
    if messages != [] && messages[|messages| - 1].generation.None? {
      var front := messages[..|messages| - 1];
      LastGenerationAt(front);
      forall i: nat | LastAt(messages, i)
        ensures LastAt(front, i)
      {
      }
    }
  }

  /**
   * When an append can be planned, and the metadata it asks for: the title is set by the first message only,
   * and the last message that names a model decides the model.
   */
  lemma PlanExact(read: SessionMeta, expected: Option<MessageId>, news: seq<NewMessage>, title: Option<string>,
                  consumed: Option<int>)
    ensures
      var r := PlanAppend(read, expected, news, title, consumed);
      && (r.Ok? <==> read.tip == expected && news != [])
      && (r.Err? ==> r.error == if read.tip != expected then TipChanged else NothingToAppend)
      && (r.Ok? ==>
            && r.value.session.revision == read.revision && r.value.session.tip == Some(news[|news| - 1].id)
            && r.value.session.title
               == (if read.tip.None? && read.title.None? && title.Some? then title else read.title)
            && ((forall n | n in news :: n.generation.None?) ==> r.value.session.model == read.model)
            && (forall i: nat | LastAt(r.value.messages, i) ::
                  r.value.session.model == Some(r.value.messages[i].generation.value.model)))
  {
    var messages := Linked(read.tip, news);
    LastGenerationAt(messages);
    if news != [] {
      LinkedPlaces(read.tip, news, |news| - 1);
    }
    forall i | 0 <= i < |news|
      ensures messages[i].generation == news[i].generation && news[i] in news
    {
      LinkedPlaces(read.tip, news, i);
    }
  }

  /** Writes the messages one after the other; an id already stored must carry the same message. */
  function LinkMessages(db: Db, tokens: Tokens, s: SessionId, messages: seq<Message>): (r: Result<Db, Error>)
    decreases |messages|
  {
    if messages == [] then Ok(db) else
    var message := messages[0];
    if message.id in db.records && Views(db)[message.id].Err? then Err(Views(db)[message.id].error)
    else if message.id in db.records && Views(db)[message.id].value != message then Err(IdReused)
    else
      var next :- WriteMessageRecord(db, tokens, Some(s), message);
      LinkMessages(next, tokens, s, messages[1..])
  }

  /** `save_linked`: all of the messages and the new tip in one transaction, or nothing. */
  function SaveLinked(db: Db, tokens: Tokens, request: LinkRequest): (r: Result<(Db, bool), Error>) {
    var s := request.session.id;
    var _ :- AssertOwner(db.sessions, tokens, s);
    if s !in db.sessions || db.sessions[s].tip != request.expected then Ok((db, false)) else
    var _ :- AssertSessionRevision(db.sessions, request.session);
    var linked :- LinkMessages(db, tokens, s, request.messages);
    Ok((linked.(sessions := SaveSession(linked.sessions, request.session),
                queue := Consumed(linked.queue, s, request.consumed)), true))
  }

  method SaveLinkedTransaction(p: Process, request: LinkRequest) returns (r: Result<bool, Error>)
    modifies p.shared
    ensures match SaveLinked(old(p.shared.db), p.tokens, request)
            case Ok((db, linked)) => r == Ok(linked) && p.shared.db == db
            case Err(e) => r == Err(e) && p.shared.db == old(p.shared.db)
  {
    var db, s := p.shared.db, request.session.id;
    var owner := AssertOwner(db.sessions, p.tokens, s);
    if owner.Err? {
      return Err(owner.error);
    }
    if s !in db.sessions || db.sessions[s].tip != request.expected {
      return Ok(false);
    }
    var revision := AssertSessionRevision(db.sessions, request.session);
    if revision.Err? {
      return Err(revision.error);
    }
    var work := db;
    for i := 0 to |request.messages|
      invariant p.shared.db == db
      invariant LinkMessages(db, p.tokens, s, request.messages)
                == LinkMessages(work, p.tokens, s, request.messages[i..])
    {
      var message := request.messages[i];
      assert request.messages[i..][1..] == request.messages[i + 1..];
      if message.id in work.records {
        var existing := ReadMessage(work.records[message.id].message, LogOf(work, message.id));
        assert Views(work)[message.id] == existing;
        if existing.Err? {
          return Err(existing.error);
        }
        if existing.value != message {
          return Err(IdReused);
        }
      }
      var written := WriteMessageRecord(work, p.tokens, Some(s), message);
      if written.Err? {
        return Err(written.error);
      }
      work := written.value;
    }
    p.shared.db := work.(sessions := SaveSession(work.sessions, request.session),
                         queue := Consumed(work.queue, s, request.consumed));
    r := Ok(true);
  }

  /** The chain after linking: the messages newest first, then what was there. */
  function Extended(chain: seq<MessageId>, messages: seq<Message>): (r: seq<MessageId>)
    ensures |r| == |messages| + |chain|
    ensures forall k | 0 <= k < |messages| :: r[k] == messages[|messages| - 1 - k].id
    ensures r[|messages|..] == chain
    decreases |messages|
  {
    if messages == [] then chain else
    var r := Extended([messages[0].id] + chain, messages[1..]);
    assert r[|messages|..] == r[|messages| - 1..][1..];
    r
  }

  ghost predicate ParentsKept(records: Records, records': Records) {
    forall id | id in records :: id in records' && records'[id].message.parent == records[id].message.parent
  }

  lemma WriteKeepsChains(db: Db, tokens: Tokens, s: SessionId, message: Message, chain: seq<MessageId>)
    requires WriteMessageRecord(db, tokens, Some(s), message).Ok?
    requires message.id in db.records ==> db.records[message.id].message.parent == message.parent
    requires IsChain(db.records, message.parent, chain)
    ensures
      var db' := WriteMessageRecord(db, tokens, Some(s), message).value;
      ParentsKept(db.records, db'.records) && IsChain(db'.records, Some(message.id), [message.id] + chain)
  {
    var db' := WriteMessageRecord(db, tokens, Some(s), message).value;
    ChainFrame(db.records, db'.records, message.parent, chain);
    assert ([message.id] + chain)[1..] == chain;
  }

  /** Linking extends the chain by exactly the messages in order, and no other chain changes. */
  lemma {:induction false} LinkExtends(db: Db, tokens: Tokens, s: SessionId, messages: seq<Message>,
                                       parent: Option<MessageId>, chain: seq<MessageId>)
    requires LinkMessages(db, tokens, s, messages).Ok? && IsLinked(parent, messages)
    requires IsChain(db.records, parent, chain)
    ensures
      var db' := LinkMessages(db, tokens, s, messages).value;
      && ParentsKept(db.records, db'.records)
      && IsChain(db'.records, if messages == [] then parent else Some(messages[|messages| - 1].id),
                 Extended(chain, messages))
    decreases |messages|
  {
    if messages != [] {
      var message := messages[0];
      if message.id in db.records {
        assert Views(db)[message.id] == Ok(message);
      }
      WriteKeepsChains(db, tokens, s, message, chain);
      var next := WriteMessageRecord(db, tokens, Some(s), message).value;
      LinkExtends(next, tokens, s, messages[1..], Some(message.id), [message.id] + chain);
    }
  }

  lemma {:induction false} LinkKeepsRows(db: Db, tokens: Tokens, s: SessionId, messages: seq<Message>)
    requires LinkMessages(db, tokens, s, messages).Ok?
    ensures
      var db' := LinkMessages(db, tokens, s, messages).value;
      && db'.sessions.Keys == db.sessions.Keys && db'.queue == db.queue
      && forall k | k in db.sessions ::
           && db'.sessions[k].tip == db.sessions[k].tip && SameLease(db'.sessions[k], db.sessions[k])
           && db'.sessions[k].metadataRevision == db.sessions[k].metadataRevision
    decreases |messages|
  {
    if messages != [] {
      LinkKeepsRows(WriteMessageRecord(db, tokens, Some(s), messages[0]).value, tokens, s, messages[1..]);
    }
  }

  /** What a write leaves: the message itself, filed where it was or under the session; all else as before. */
  lemma WriteContents(db: Db, tokens: Tokens, s: SessionId, m: Message, id: MessageId)
    requires WriteMessageRecord(db, tokens, Some(s), m).Ok?
    ensures
      var db' := WriteMessageRecord(db, tokens, Some(s), m).value;
      if id == m.id then
        && id in db'.records && Views(db')[id] == Ok(m)
        && db'.records[id].session == (if SessionOf(db.records, id).Some? then SessionOf(db.records, id) else Some(s))
      else SameMessage(db, db', id) && SessionOf(db'.records, id) == SessionOf(db.records, id)
  {
  }

  predicate Carries(messages: seq<Message>, id: MessageId) {
    exists m | m in messages :: m.id == id
  }

  /** Linking stores exactly the given messages, each as given, and leaves what was stored. */
  lemma {:induction false} LinkContents(db: Db, tokens: Tokens, s: SessionId, messages: seq<Message>, id: MessageId)
    requires LinkMessages(db, tokens, s, messages).Ok?
    ensures
      var db' := LinkMessages(db, tokens, s, messages).value;
      && (Carries(messages, id) ==>
            && id in db'.records
            && (forall m | m in messages && m.id == id ::
                  Views(db')[id] == Ok(m) && (id in db.records ==> Views(db)[id] == Ok(m)))
            && db'.records[id].session
               == (if SessionOf(db.records, id).Some? then SessionOf(db.records, id) else Some(s)))
      && (!Carries(messages, id) ==>
            SameMessage(db, db', id) && SessionOf(db'.records, id) == SessionOf(db.records, id))
    decreases |messages|
  {
    if messages != [] {
      var m, rest := messages[0], messages[1..];
      var next := WriteMessageRecord(db, tokens, Some(s), m).value;
      WriteContents(db, tokens, s, m, id);
      LinkContents(next, tokens, s, rest, id);
      assert forall k :: k in messages <==> k == m || k in rest;
    }
  }

  /** Linking gives no stored message another parent. */
  lemma LinkStores(db: Db, tokens: Tokens, s: SessionId, messages: seq<Message>, id: MessageId)
    requires LinkMessages(db, tokens, s, messages).Ok? && id in db.records
    ensures
      var db' := LinkMessages(db, tokens, s, messages).value;
      id in db'.records && db'.records[id].message.parent == db.records[id].message.parent
  {
    LinkContents(db, tokens, s, messages, id);
    var db' := LinkMessages(db, tokens, s, messages).value;
    if m :| m in messages && m.id == id {
      assert Views(db)[id] == Ok(m) && Views(db')[id] == Ok(m);
    }
  }

  /** A linked append leaves every session leased to another runtime as it was. */
  lemma {:induction false} LinkIsolated(db: Db, tokens: Tokens, s: SessionId, messages: seq<Message>, other: SessionId)
    requires LinkMessages(db, tokens, s, messages).Ok? && LeasedElsewhere(db.sessions, tokens, other)
    ensures Untouched(db, LinkMessages(db, tokens, s, messages).value, other)
    decreases |messages|
  {
    if messages != [] {
      var next := WriteMessageRecord(db, tokens, Some(s), messages[0]).value;
      WriteIsolated(db, tokens, Some(s), messages[0], other);
      LinkIsolated(next, tokens, s, messages[1..], other);
    }
  }

  lemma SaveLinkedIsolated(db: Db, tokens: Tokens, request: LinkRequest, other: SessionId)
    requires SaveLinked(db, tokens, request).Ok? && LeasedElsewhere(db.sessions, tokens, other)
    ensures Untouched(db, SaveLinked(db, tokens, request).value.0, other)
  {
    if SaveLinked(db, tokens, request).value.1 {
      LinkIsolated(db, tokens, request.session.id, request.messages, other);
      var linked := LinkMessages(db, tokens, request.session.id, request.messages).value;
      SameHistory(linked, SaveLinked(db, tokens, request).value.0, other);
    }
  }

  lemma ChainsKept(records: Records, records': Records, cursor: Option<MessageId>)
    requires ParentsKept(records, records')
    ensures forall chain | IsChain(records, cursor, chain) :: IsChain(records', cursor, chain)
  {
    forall chain | IsChain(records, cursor, chain)
      ensures IsChain(records', cursor, chain)
    {
      ChainFrame(records, records', cursor, chain);
    }
  }

  /** The messages of a plan in front of the session's chain; nobody else's parents change. */
  lemma PlanExtends(db: Db, tokens: Tokens, read: SessionMeta, news: seq<NewMessage>, messages: seq<Message>)
    requires messages == Linked(read.tip, news) && messages != []
    requires LinkMessages(db, tokens, read.id, messages).Ok? && Rooted(db.records, read.tip)
    ensures
      var records := LinkMessages(db, tokens, read.id, messages).value.records;
      && ParentsKept(db.records, records) && Rooted(records, Some(messages[|messages| - 1].id))
      && forall chain | IsChain(db.records, read.tip, chain) ::
           IsChain(records, Some(messages[|messages| - 1].id), Extended(chain, messages))
  {
    LinkedIsLinked(read.tip, news);
    var own :| IsChain(db.records, read.tip, own);
    LinkExtends(db, tokens, read.id, messages, read.tip, own);
    forall chain | IsChain(db.records, read.tip, chain)
      ensures chain == own
    {
      ChainUnique(db.records, read.tip, own, chain);
    }
  }

  /**
   * An append planned from any earlier read of the session either leaves the database as it
   * was, or extends this session's chain by exactly the new messages in order; every chain
   * stays complete, however ids repeat or were stored before.
   */
  lemma AppendAllOrNothing(db: Db, tokens: Tokens, read: SessionMeta, expected: Option<MessageId>,
                           news: seq<NewMessage>, title: Option<string>, consumed: Option<int>)
    requires Sound(db) && PlanAppend(read, expected, news, title, consumed).Ok?
    requires SaveLinked(db, tokens, PlanAppend(read, expected, news, title, consumed).value).Ok?
    ensures
      var request := PlanAppend(read, expected, news, title, consumed).value;
      var (db', linked) := SaveLinked(db, tokens, request).value;
      && Sound(db')
      && (!linked ==> db' == db)
      && (linked ==>
            && read.id in db.sessions && read.id in db'.sessions
            && (forall chain | IsChain(db.records, db.sessions[read.id].tip, chain) ::
                  IsChain(db'.records, db'.sessions[read.id].tip, Extended(chain, request.messages)))
            && (forall s, chain | s in db.sessions && s != read.id && IsChain(db.records, db.sessions[s].tip, chain) ::
                  s in db'.sessions && db'.sessions[s].tip == db.sessions[s].tip
                  && IsChain(db'.records, db'.sessions[s].tip, chain)))
  {
    var request := PlanAppend(read, expected, news, title, consumed).value;
    var (db', linked) := SaveLinked(db, tokens, request).value;
    if linked {
      LinkKeepsRows(db, tokens, read.id, request.messages);
      assert Rooted(db.records, db.sessions[read.id].tip);
      PlanExtends(db, tokens, read, news, request.messages);
      forall s | s in db'.sessions && s != read.id
        ensures s in db.sessions && db'.sessions[s].tip == db.sessions[s].tip
        ensures forall chain | IsChain(db.records, db.sessions[s].tip, chain) ::
                  IsChain(db'.records, db.sessions[s].tip, chain)
        ensures Rooted(db'.records, db'.sessions[s].tip)
      {
        ChainsKept(db.records, db'.records, db.sessions[s].tip);
        assert Rooted(db.records, db.sessions[s].tip);
      }
    }
  }

  /**
   * A committed append found the session as it was read, and left the messages as given, the row with the
   * metadata asked for, and the queue without what this session consumed.
   */
  lemma AppendExact(db: Db, tokens: Tokens, request: LinkRequest)
    requires SaveLinked(db, tokens, request).Ok? && SaveLinked(db, tokens, request).value.1
    ensures
      var s, db' := request.session.id, SaveLinked(db, tokens, request).value.0;
      && AssertOwner(db.sessions, tokens, s).Ok? && s in db.sessions && s in db'.sessions
      && db.sessions[s].tip == request.expected && db.sessions[s].metadataRevision == request.session.revision
      && db'.sessions[s].tip == request.session.tip && db'.sessions[s].title == request.session.title
      && db'.sessions[s].model == request.session.model && SameLease(db'.sessions[s], db.sessions[s])
      && db'.sessions[s].metadataRevision == request.session.revision + 1
      && (forall m | m in request.messages :: m.id in db'.records && Views(db')[m.id] == Ok(m))
      && (forall id | !Carries(request.messages, id) ::
            SameMessage(db, db', id) && SessionOf(db'.records, id) == SessionOf(db.records, id))
      && (forall k :: k in db'.queue <==>
            k in db.queue && !(request.consumed.Some? && k.0 == s && k.1 <= request.consumed.value))
      && (forall k | k in db'.queue :: db'.queue[k] == db.queue[k])
  {
    var s, db', messages := request.session.id, SaveLinked(db, tokens, request).value.0, request.messages;
    LinkKeepsRows(db, tokens, s, messages);
    forall m | m in messages
      ensures m.id in db'.records && Views(db')[m.id] == Ok(m)
    {
      LinkContents(db, tokens, s, messages, m.id);
      StoredAt(db, tokens, s, messages, m.id, db');
    }
    forall id | !Carries(messages, id)
      ensures SameMessage(db, db', id) && SessionOf(db'.records, id) == SessionOf(db.records, id)
    {
      LinkContents(db, tokens, s, messages, id);
    }
  }

  lemma StoredAt(db: Db, tokens: Tokens, s: SessionId, messages: seq<Message>, id: MessageId, db': Db)
    requires LinkMessages(db, tokens, s, messages).Ok?
    requires
      var linked := LinkMessages(db, tokens, s, messages).value;
      id in linked.records && db'.records == linked.records && db'.logs == linked.logs
    ensures id in db'.records && Views(db')[id] == Views(LinkMessages(db, tokens, s, messages).value)[id]
  {
  }

  lemma {:induction false} ChainStored(records: Records, cursor: Option<MessageId>, chain: seq<MessageId>,
                                       id: MessageId)
    requires IsChain(records, cursor, chain) && id !in records
    ensures id !in chain
    decreases |chain|
  {
    if chain != [] {
      ChainStored(records, records[chain[0]].message.parent, chain[1..], id);
    }
  }

  lemma FreshNotInHistory(at: Db, s: SessionId, id: MessageId)
    requires Sound(at) && s in at.sessions && id !in at.records
    ensures !InHistory(at, s, id)
  {
    assert Rooted(at.records, at.sessions[s].tip);
    var own :| IsChain(at.records, at.sessions[s].tip, own);
    ChainIsAncestry(at.records, at.sessions[s].tip, own, {});
    ChainStored(at.records, at.sessions[s].tip, own, id);
  }

  lemma FreshOwners(db: Db, tokens: Tokens, s: SessionId, id: MessageId)
    requires Sound(db) && s in db.sessions && id !in db.records && AssertOwner(db.sessions, tokens, s).Ok?
    ensures Owners(db, tokens, id, Some(s), {}) == Ok({s})
  {
    forall k | k in db.sessions
      ensures !InHistory(db, k, id)
    {
      FreshNotInHistory(db, k, id);
    }
    assert MessageSessions(db, id, Some(s)) == {s};
  }

  /** A message whose id is new can be written by whoever may write the session it is for. */
  lemma FreshWritten(db: Db, tokens: Tokens, s: SessionId, message: Message)
    requires Sound(db) && s in db.sessions && message.id !in db.records && AssertOwner(db.sessions, tokens, s).Ok?
    ensures
      var r := WriteMessageRecord(db, tokens, Some(s), message);
      && r.Ok? && Sound(r.value) && r.value.records.Keys == db.records.Keys + {message.id}
      && s in r.value.sessions && AssertOwner(r.value.sessions, tokens, s).Ok?
  {
    FreshOwners(db, tokens, s, message.id);
    FreshKeepsSound(db, tokens, s, message);
  }

  lemma FreshKeepsSound(db: Db, tokens: Tokens, s: SessionId, message: Message)
    requires Sound(db) && message.id !in db.records && WriteMessageRecord(db, tokens, Some(s), message).Ok?
    ensures Sound(WriteMessageRecord(db, tokens, Some(s), message).value)
  {
    var db' := WriteMessageRecord(db, tokens, Some(s), message).value;
    forall k | k in db'.sessions
      ensures Rooted(db'.records, db'.sessions[k].tip)
    {
      assert Rooted(db.records, db.sessions[k].tip);
      ChainsKept(db.records, db'.records, db.sessions[k].tip);
    }
  }

  lemma {:induction false} FreshLinked(db: Db, tokens: Tokens, s: SessionId, messages: seq<Message>)
    requires Sound(db) && s in db.sessions && AssertOwner(db.sessions, tokens, s).Ok?
    requires DistinctIds(messages) && forall m | m in messages :: m.id !in db.records
    ensures LinkMessages(db, tokens, s, messages).Ok?
    decreases |messages|
  {
    if messages != [] {
      var m, rest := messages[0], messages[1..];
      assert m in messages;
      FreshWritten(db, tokens, s, m);
      forall k | k in rest
        ensures k.id !in db.records && k.id != m.id
      {
        var i :| 0 <= i < |rest| && rest[i] == k;
        assert messages[i + 1] == k && k in messages;
      }
      FreshLinked(WriteMessageRecord(db, tokens, Some(s), m).value, tokens, s, rest);
    }
  }

  /**
   * An append of new messages commits exactly when this runtime may write the session and the session is still as
   * it was read; if another tip is found it declines, whatever the revision.
   */
  lemma FreshAppendCommits(db: Db, tokens: Tokens, request: LinkRequest)
    requires Sound(db) && DistinctIds(request.messages) && forall m | m in request.messages :: m.id !in db.records
    ensures
      var s, r := request.session.id, SaveLinked(db, tokens, request);
      && (r.Ok? && r.value.1 <==>
            && AssertOwner(db.sessions, tokens, s).Ok? && s in db.sessions && db.sessions[s].tip == request.expected
            && db.sessions[s].metadataRevision == request.session.revision)
      && (r.Ok? && !r.value.1 <==>
            && AssertOwner(db.sessions, tokens, s).Ok?
            && !(s in db.sessions && db.sessions[s].tip == request.expected))
  {
    var s := request.session.id;
    if s in db.sessions && AssertOwner(db.sessions, tokens, s).Ok? {
      FreshLinked(db, tokens, s, request.messages);
    }
  }

  /** Any message of a complete history starts a complete chain. */
  lemma HistoryIsRooted(db: Db, s: SessionId, id: MessageId)
    requires Sound(db) && s in db.sessions && InHistory(db, s, id)
    ensures Rooted(db.records, Some(id))
  {
    assert Rooted(db.records, db.sessions[s].tip);
    var chain :| IsChain(db.records, db.sessions[s].tip, chain);
    ChainIsAncestry(db.records, db.sessions[s].tip, chain, {});
    var i :| 0 <= i < |chain| && chain[i] == id;
    ChainSuffix(db.records, db.sessions[s].tip, chain, i);
  }

  /** Storing a message keeps every chain complete, unless it gives a stored message another parent. */
  lemma SaveKeepsSound(db: Db, tokens: Tokens, message: Message)
    requires Sound(db) && SaveMessage(db, tokens, message).Ok?
    requires message.id in db.records ==> db.records[message.id].message.parent == message.parent
    ensures Sound(SaveMessage(db, tokens, message).value)
  {
    var db' := SaveMessage(db, tokens, message).value;
    var bumped, session := SaveShape(db, tokens, message);
    forall s | s in db'.sessions
      ensures Rooted(db'.records, db'.sessions[s].tip)
    {
      assert Rooted(db.records, db.sessions[s].tip);
      var chain :| IsChain(db.records, db.sessions[s].tip, chain);
      ChainFrame(db.records, db'.records, db.sessions[s].tip, chain);
    }
  }

  // Linking messages that were saved one by one --------------------------------

  /** Where `path[i]` points: the next message of the path, or what the path leads to. */
  function ParentOnPath(path: seq<MessageId>, i: nat, end: Option<MessageId>): (r: Option<MessageId>)
    requires i < |path|
  {
    if i + 1 < |path| then Some(path[i + 1]) else end
  }

  /** No stored message of the path, newest first, has any parent but the next one. */
  ghost predicate Fits(records: Records, path: seq<MessageId>, end: Option<MessageId>) {
    forall i | 0 <= i < |path| && path[i] in records :: records[path[i]].message.parent == ParentOnPath(path, i, end)
  }

  /** The start of a path. */
  function First(path: seq<MessageId>, end: Option<MessageId>): (r: Option<MessageId>) {
    if path == [] then end else Some(path[0])
  }

  predicate AllStored(records: Records, path: seq<MessageId>) {
    forall i | 0 <= i < |path| :: path[i] in records
  }

  lemma FitsTail(records: Records, path: seq<MessageId>, end: Option<MessageId>)
    requires path != [] && Fits(records, path, end)
    ensures Fits(records, path[1..], end)
    ensures path[0] in records ==> records[path[0]].message.parent == First(path[1..], end)
  {
    var rest := path[1..];
    forall i | 0 <= i < |rest| && rest[i] in records
      ensures records[rest[i]].message.parent == ParentOnPath(rest, i, end)
    {
      assert rest[i] == path[i + 1];
    }
  }

  lemma {:induction false} StoredPath(records: Records, path: seq<MessageId>, end: Option<MessageId>,
                                      chain: seq<MessageId>)
    requires Fits(records, path, end) && AllStored(records, path) && IsChain(records, end, chain)
    ensures IsChain(records, First(path, end), path + chain)
    decreases |path|
  {
    if path == [] {
      assert path + chain == chain;
    } else {
      FitsTail(records, path, end);
      StoredPath(records, path[1..], end, chain);
      assert (path + chain)[1..] == path[1..] + chain;
    }
  }

  lemma {:induction false} RootedPath(records: Records, path: seq<MessageId>, end: Option<MessageId>,
                                      whole: seq<MessageId>)
    requires Fits(records, path, end) && IsChain(records, First(path, end), whole)
    ensures AllStored(records, path)
    decreases |path|
  {
    if path != [] {
      FitsTail(records, path, end);
      RootedPath(records, path[1..], end, whole[1..]);
      assert path == [path[0]] + path[1..];
    }
  }

  /** A path in front of a complete chain makes a complete chain exactly when all its messages are stored. */
  lemma PathIsRooted(records: Records, path: seq<MessageId>, end: Option<MessageId>, chain: seq<MessageId>)
    requires Fits(records, path, end) && IsChain(records, end, chain)
    ensures AllStored(records, path) ==> IsChain(records, First(path, end), path + chain)
    ensures Rooted(records, First(path, end)) <==> AllStored(records, path)
  {
    if AllStored(records, path) {
      StoredPath(records, path, end, chain);
    }
    if whole :| IsChain(records, First(path, end), whole) {
      RootedPath(records, path, end, whole);
    }
  }

  /**
   * A committed link of messages saved before, which nothing re-checks: the session's chain is extended
   * by exactly those messages when all of them are still stored, and is broken when one is not.
   */
  lemma LinkSavedExact(db: Db, tokens: Tokens, meta: SessionMeta, expected: Option<MessageId>, path: seq<MessageId>)
    requires Sound(db) && meta.tip == First(path, expected) && Fits(db.records, path, expected)
    requires Update(db, tokens, meta, Some(expected), false).Ok?
             && Update(db, tokens, meta, Some(expected), false).value.1
    ensures
      var db' := Update(db, tokens, meta, Some(expected), false).value.0;
      && (Sound(db') <==> AllStored(db.records, path))
      && (AllStored(db.records, path) ==> forall chain | IsChain(db.records, expected, chain) ::
            IsChain(db'.records, db'.sessions[meta.id].tip, path + chain))
  {
    var db' := Update(db, tokens, meta, Some(expected), false).value.0;
    assert Rooted(db.records, db.sessions[meta.id].tip);
    var own :| IsChain(db.records, expected, own);
    PathIsRooted(db.records, path, expected, own);
    UpdateSound(db, tokens, meta, Some(expected), false);
    if AllStored(db.records, path) {
      forall chain | IsChain(db.records, expected, chain)
        ensures IsChain(db'.records, meta.tip, path + chain)
      {
        PathIsRooted(db.records, path, expected, chain);
        ChainFrame(db.records, db'.records, meta.tip, path + chain);
      }
    }
  }

  /** The ids of linked messages, newest first. */
  function Newest(messages: seq<Message>): (r: seq<MessageId>) {
    seq(|messages|, i requires 0 <= i < |messages| => messages[|messages| - 1 - i].id)
  }

  predicate DistinctIds(messages: seq<Message>) {
    forall i, j | 0 <= i < j < |messages| :: messages[i].id != messages[j].id
  }

  /** Nobody has stored one of these messages with another parent. */
  ghost predicate Respected(records: Records, messages: seq<Message>) {
    forall m | m in messages && m.id in records :: records[m.id].message.parent == m.parent
  }

  lemma {:induction false} LinkedAt(parent: Option<MessageId>, messages: seq<Message>, i: nat)
    requires IsLinked(parent, messages) && i < |messages|
    ensures messages[i].parent == if i == 0 then parent else Some(messages[i - 1].id)
    decreases i
  {
    if i > 0 {
      LinkedAt(Some(messages[0].id), messages[1..], i - 1);
    }
  }

  lemma LinkedFits(records: Records, parent: Option<MessageId>, messages: seq<Message>)
    requires IsLinked(parent, messages) && Respected(records, messages)
    ensures Fits(records, Newest(messages), parent)
  {
    var path := Newest(messages);
    forall i | 0 <= i < |path| && path[i] in records
      ensures records[path[i]].message.parent == ParentOnPath(path, i, parent)
    {
      var k := |messages| - 1 - i;
      assert messages[k] in messages;
      LinkedAt(parent, messages, k);
    }
  }

  /**
   * Whatever other processes commit in between: chains stay complete and nobody stores one of these
   * messages with another parent, but any of them may be removed. Callers know only this contract, so
   * what they prove holds for every such interference.
   */
  method OthersCommit(shared: Shared, ghost messages: seq<Message>)
    modifies shared
    ensures Sound(old(shared.db)) ==> Sound(shared.db)
    ensures Respected(old(shared.db).records, messages) ==> Respected(shared.db.records, messages)
  {
  }

  lemma SaveRespects(db: Db, tokens: Tokens, messages: seq<Message>, m: Message)
    requires Respected(db.records, messages) && m in messages && SaveMessage(db, tokens, m).Ok?
    requires DistinctIds(messages)
    ensures Respected(SaveMessage(db, tokens, m).value.records, messages)
  {
  }

  /** `remove_queued_messages`. */
  function Dequeue(db: Db, tokens: Tokens, s: SessionId, through: int): (r: Result<Db, Error>) {
    var _ :- AssertOwner(db.sessions, tokens, s);
    Ok(db.(queue := Consumed(db.queue, s, Some(through))))
  }

  lemma DequeueExact(db: Db, tokens: Tokens, s: SessionId, through: int)
    ensures
      var r := Dequeue(db, tokens, s, through);
      && (r.Ok? <==> AssertOwner(db.sessions, tokens, s).Ok?)
      && (r.Ok? ==>
            && r.value.sessions == db.sessions && r.value.records == db.records && r.value.logs == db.logs
            && (forall k :: k in r.value.queue <==> k in db.queue && !(k.0 == s && k.1 <= through))
            && (forall k | k in r.value.queue :: r.value.queue[k] == db.queue[k]))
  {
  }

  /** The first messages, each saved by a transaction of its own. */
  ghost predicate Saving(tokens: Tokens, messages: seq<Message>, saves: seq<(Db, Db)>) {
    && |saves| <= |messages|
    && forall i | 0 <= i < |saves| :: SaveMessage(saves[i].0, tokens, messages[i]) == Ok(saves[i].1)
  }

  /**
   * `link_individually`, for a store that cannot link in one transaction: each message is saved on its
   * own, the tip is moved after that and the queue is consumed last, with anything committed by others in
   * between. `saves` is what each save found and left, `at` what moving the tip found and `moved` what it left;
   * when it did not happen, both are the database at the end.
   */
  method LinkIndividually(p: Process, request: LinkRequest)
    returns (r: Result<bool, Error>, ghost saves: seq<(Db, Db)>, ghost at: Db, ghost moved: Db, ghost linked: bool)
    requires Sound(p.shared.db) && Respected(p.shared.db.records, request.messages)
    requires IsLinked(request.expected, request.messages) && request.messages != []
    requires request.session.tip == Some(request.messages[|request.messages| - 1].id)
    requires DistinctIds(request.messages)
    modifies p.shared
    ensures Sound(at) && (r == Ok(true) ==> linked) && (r == Ok(false) ==> !linked)
    ensures !linked ==> p.shared.db == moved == at
    ensures Saving(p.tokens, request.messages, saves)
    ensures |saves| < |request.messages| ==>
              !linked && SaveMessage(at, p.tokens, request.messages[|saves|]).Err?
              && r == Err(SaveMessage(at, p.tokens, request.messages[|saves|]).error)
    ensures |saves| == |request.messages| ==>
              var s := request.session.id;
              linked <==> && AssertOwner(at.sessions, p.tokens, s).Ok? && s in at.sessions
                          && at.sessions[s].tip == request.expected
                          && at.sessions[s].metadataRevision == request.session.revision
    ensures linked ==>
              && request.session.id in at.sessions && at.sessions[request.session.id].tip == request.expected
              && (Sound(moved) <==> AllStored(at.records, Newest(request.messages)))
              && (Sound(moved) ==> forall chain | IsChain(at.records, request.expected, chain) ::
                    IsChain(moved.records, TipOf(moved.sessions, request.session.id), Newest(request.messages) + chain))
    ensures linked ==> Updated(at, moved, request.session)
    ensures r == Ok(true) && request.consumed.None? ==> p.shared.db == moved
    ensures r == Ok(true) && request.consumed.Some? ==>
              forall k | k in p.shared.db.queue && k.0 == request.session.id :: k.1 > request.consumed.value
  {
    linked := false;
    var saved;
    saved, saves, at := SaveEach(p, request.messages);
    moved := at;
    if saved.Err? {
      return Err(saved.error), saves, at, moved, linked;
    }
    var updated := Update(p.shared.db, p.tokens, request.session, Some(request.expected), false);
    LinkCommits(at, p.tokens, request);
    if updated.Err? {
      return Err(updated.error), saves, at, moved, linked;
    }
    if !updated.value.1 {
      return Ok(false), saves, at, moved, linked;
    }
    p.shared.db := updated.value.0;
    moved, linked := p.shared.db, true;
    if request.consumed.Some? {
      OthersCommit(p.shared, request.messages);
      var dequeued := Dequeue(p.shared.db, p.tokens, request.session.id, request.consumed.value);
      if dequeued.Err? {
        return Err(dequeued.error), saves, at, moved, linked;
      }
      p.shared.db := dequeued.value;
    }
    r := Ok(true);
  }

  /** Each message in turn; `at` is the database at the end, or the one that refused a save. */
  method SaveEach(p: Process, messages: seq<Message>)
    returns (r: Result<(), Error>, ghost saves: seq<(Db, Db)>, ghost at: Db)
    requires Sound(p.shared.db) && Respected(p.shared.db.records, messages) && DistinctIds(messages)
    modifies p.shared
    ensures Sound(at) && Respected(at.records, messages) && p.shared.db == at && Saving(p.tokens, messages, saves)
    ensures r.Ok? <==> |saves| == |messages|
    ensures r.Err? ==> SaveMessage(at, p.tokens, messages[|saves|]) == Err(r.error)
  {
    saves := [];
    for i := 0 to |messages|
      invariant Sound(p.shared.db) && Respected(p.shared.db.records, messages)
      invariant |saves| == i && Saving(p.tokens, messages, saves)
    {
      var m := messages[i];
      at := p.shared.db;
      assert m in messages;
      var saved := References.Save(p, m);
      if saved.Err? {
        return Err(saved.error), saves, at;
      }
      SaveKeepsSound(at, p.tokens, m);
      SaveRespects(at, p.tokens, messages, m);
      saves := saves + [(at, p.shared.db)];
      OthersCommit(p.shared, messages);
    }
    r, at := Ok(()), p.shared.db;
  }

  lemma LinkCommits(at: Db, tokens: Tokens, request: LinkRequest)
    requires Sound(at) && Respected(at.records, request.messages) && IsLinked(request.expected, request.messages)
    requires request.messages != []
    requires request.session.tip == Some(request.messages[|request.messages| - 1].id)
    ensures
      var updated, s := Update(at, tokens, request.session, Some(request.expected), false), request.session.id;
      && (updated.Ok? && updated.value.1 <==>
            && AssertOwner(at.sessions, tokens, s).Ok? && s in at.sessions && at.sessions[s].tip == request.expected
            && at.sessions[s].metadataRevision == request.session.revision)
      && (updated.Ok? && updated.value.1 ==>
            var moved := updated.value.0;
            && Updated(at, moved, request.session)
            && (Sound(moved) <==> AllStored(at.records, Newest(request.messages)))
            && (Sound(moved) ==> forall chain | IsChain(at.records, request.expected, chain) ::
                  IsChain(moved.records, TipOf(moved.sessions, s), Newest(request.messages) + chain)))
  {
    UpdateExact(at, tokens, request.session, Some(request.expected), false);
    var updated := Update(at, tokens, request.session, Some(request.expected), false);
    if updated.Ok? && updated.value.1 {
      LinkedFits(at.records, request.expected, request.messages);
      LinkSavedExact(at, tokens, request.session, request.expected, Newest(request.messages));
    }
  }

  // Rolling an append back ---------------------------------------------------

  lemma DropKeepsChain(db: Db, tokens: Tokens, id: MessageId, s: SessionId, chain: seq<MessageId>)
    requires s in db.sessions && IsChain(db.records, db.sessions[s].tip, chain)
    requires DeleteUnreferenced(db, tokens, id).Ok?
    ensures IsChain(DeleteUnreferenced(db, tokens, id).value.records, db.sessions[s].tip, chain)
  {
    var db' := DeleteUnreferenced(db, tokens, id).value;
    ChainIsAncestry(db.records, db.sessions[s].tip, chain, {});
    assert id in chain ==> InHistory(db, s, id);
    ChainFrame(db.records, db'.records, db.sessions[s].tip, chain);
  }

  /** The compare-and-swap of a rollback, made with metadata read earlier. */
  function Restored(at: Db, tokens: Tokens, read: SessionMeta, id: MessageId, tip: Option<MessageId>,
                    title: Option<string>)
    : (r: Result<(Db, bool), Error>)
  {
    Update(at, tokens, read.(tip := tip, title := title), Some(Some(id)), false)
  }

  /**
   * Whenever the compare-and-swap succeeds, the session is back on the chain behind the abandoned
   * message and has its former title, and every chain is complete.
   */
  lemma RestoreUndoesAppend(at: Db, tokens: Tokens, read: SessionMeta, id: MessageId, tip: Option<MessageId>,
                            title: Option<string>, chain: seq<MessageId>)
    requires Sound(at) && Restored(at, tokens, read, id, tip, title).Ok?
             && Restored(at, tokens, read, id, tip, title).value.1
    requires id in at.records ==> at.records[id].message.parent == tip
    requires IsChain(at.records, Some(id), [id] + chain)
    ensures
      var moved := Restored(at, tokens, read, id, tip, title).value.0;
      && Sound(moved) && read.id in moved.sessions
      && moved.sessions[read.id].tip == tip && moved.sessions[read.id].title == title
      && IsChain(moved.records, tip, chain)
  {
    var moved := Restored(at, tokens, read, id, tip, title).value.0;
    assert ([id] + chain)[1..] == chain;
    assert IsChain(at.records, tip, chain);
    UpdateSound(at, tokens, read.(tip := tip, title := title), Some(Some(id)), false);
    ChainFrame(at.records, moved.records, tip, chain);
  }

  /**
   * `restore_message`: read, compare-and-swap and clean-up are three transactions with anything committed
   * in between. `at` is what the swap found and `moved` what it left; `before` is what the clean-up found.
   */
  method RestoreMessage(p: Process, s: SessionId, message: Message, title: Option<string>)
    returns (failure: Option<Error>, ghost at: Db, ghost moved: Db, ghost before: Db)
    requires Sound(p.shared.db) && Respected(p.shared.db.records, [message])
    modifies p.shared
    ensures Sound(at) && Sound(moved) && Sound(p.shared.db)
    ensures failure.Some? ==> p.shared.db == before == moved == at
    ensures s !in old(p.shared.db.sessions) ==> failure == Some(SessionNotFound)
    ensures s in old(p.shared.db.sessions) && old(p.shared.db.sessions)[s].tip != Some(message.id) ==>
              failure == Some(TipChanged)
    ensures s in old(p.shared.db.sessions) && old(p.shared.db.sessions)[s].tip == Some(message.id) ==>
              (failure.None? <==>
                 && AssertOwner(at.sessions, p.tokens, s).Ok? && s in at.sessions
                 && at.sessions[s].tip == Some(message.id)
                 && at.sessions[s].metadataRevision == old(p.shared.db.sessions)[s].metadataRevision)
    ensures failure.None? ==>
              var row := old(p.shared.db.sessions)[s];
              Updated(at, moved, SessionMeta(s, message.parent, title, row.model, row.metadataRevision))
    ensures failure.None? ==>
              && TipOf(at.sessions, s) == Some(message.id)
              && s in moved.sessions && moved.sessions[s].tip == message.parent && moved.sessions[s].title == title
              && (forall chain | IsChain(at.records, Some(message.id), [message.id] + chain) ::
                    IsChain(moved.records, message.parent, chain))
              && p.shared.db.sessions == before.sessions
              && (forall k | k in before.sessions :: Untouched(before, p.shared.db, k))
              && (message.id in p.shared.db.records ==>
                    MessageReferenced(p.shared.db, message.id) || DeleteUnreferenced(before, p.tokens, message.id).Err?)
  {
    var read := MetaOf(p.shared.db, s);
    at := p.shared.db;
    moved, before := at, at;
    if read.None? {
      return Some(SessionNotFound), at, moved, before;
    }
    if read.value.tip != Some(message.id) {
      return Some(TipChanged), at, moved, before;
    }
    OthersCommit(p.shared, [message]);
    at := p.shared.db;
    moved, before := at, at;
    assert message in [message];
    var updated := Restored(p.shared.db, p.tokens, read.value, message.id, message.parent, title);
    UpdateExact(at, p.tokens, read.value.(tip := message.parent, title := title), Some(Some(message.id)), false);
    if updated.Err? {
      return Some(updated.error), at, moved, before;
    }
    if !updated.value.1 {
      return Some(TipChanged), at, moved, before;
    }
    RestoredChains(at, p.tokens, read.value, message, title);
    p.shared.db := updated.value.0;
    moved := p.shared.db;
    OthersCommit(p.shared, [message]);
    before := p.shared.db;
    var cleaned := DeleteUnreferenced(p.shared.db, p.tokens, message.id);
    if cleaned.Ok? {
      DeleteUnreferencedSafe(before, p.tokens, message.id);
      p.shared.db := cleaned.value;
    }
    failure := None;
  }

  lemma RestoredChains(at: Db, tokens: Tokens, read: SessionMeta, message: Message, title: Option<string>)
    requires Sound(at) && (message.id in at.records ==> at.records[message.id].message.parent == message.parent)
    requires Restored(at, tokens, read, message.id, message.parent, title).Ok?
    requires Restored(at, tokens, read, message.id, message.parent, title).value.1
    ensures
      var moved := Restored(at, tokens, read, message.id, message.parent, title).value.0;
      && Sound(moved) && read.id in moved.sessions
      && moved.sessions[read.id].tip == message.parent && moved.sessions[read.id].title == title
      && (forall chain | IsChain(at.records, Some(message.id), [message.id] + chain) ::
            IsChain(moved.records, message.parent, chain))
  {
    assert Rooted(at.records, at.sessions[read.id].tip);
    var whole :| IsChain(at.records, Some(message.id), whole);
    assert whole == [message.id] + whole[1..];
    RestoreUndoesAppend(at, tokens, read, message.id, message.parent, title, whole[1..]);
    forall chain | IsChain(at.records, Some(message.id), [message.id] + chain)
      ensures IsChain(Restored(at, tokens, read, message.id, message.parent, title).value.0.records, message.parent,
                      chain)
    {
      RestoreUndoesAppend(at, tokens, read, message.id, message.parent, title, chain);
    }
  }
}
