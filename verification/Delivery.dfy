/**
 * What a client has received: every text item byte for byte as the server has
 * it, whatever the channel dropped, and every tool call reported once.
 */
module Delivery {
  import opened Types
  import opened Utf8
  import opened PromptOutput

  /** The text received for an item since the last retry of its message. */
  function Delivered(log: seq<Update>, key: Key): (r: Bytes)
    decreases |log|
  {
    if log == [] then [] else
    var front, last := log[..|log| - 1], log[|log| - 1];
    match last
    case Chunk(k, _, text) => Delivered(front, key) + (if k == key then text else [])
    case Notice(Retry(message), _) => if message == key.message then [] else Delivered(front, key)
    case _ => Delivered(front, key)
  }

  /** The text the server holds for an item after these events; a restarted message begins anew. */
  function ServerText(events: seq<Event>, key: Key): (r: Bytes)
    ensures WellFormed(r)
    decreases |events|
  {
    if events == [] then [] else
    var before := ServerText(events[..|events| - 1], key);
    match events[|events| - 1]
    case ItemStarted(message, index, TextItem(text)) =>
      Concat(before, text);
      if Key(message, index) == key then before + text else before
    case ItemDelta(message, index, delta) =>
      Concat(before, delta);
      if Key(message, index) == key then before + delta else before
    case StreamRestarted(message) => if message == key.message then [] else before
    case _ => before
  }

  /** The byte counts match what was received, which is always whole characters. */
  ghost predicate Counted(s: State) {
    forall key :: SentOf(s.sent, key) == |Delivered(s.log, key)| && WellFormed(Delivered(s.log, key))
  }

  /** What one more update does to an item. */
  lemma Sends(s: State, update: Update, key: Key)
    ensures Delivered(Send(s, update).log, key)
         == match update
            case Chunk(k, _, text) => Delivered(s.log, key) + (if k == key then text else [])
            case Notice(Retry(message), _) => if message == key.message then [] else Delivered(s.log, key)
            case _ => Delivered(s.log, key)
  {
    assert (s.log + [update])[..|s.log|] == s.log;
  }

  lemma ItemTextDelivers(s: State, key: Key, text: Text, other: Key)
    ensures
      var r := ItemText(s, key, text);
      && Delivered(r.log, other) == Delivered(s.log, other) + (if other == key then text else [])
      && SentOf(r.sent, other) == SentOf(s.sent, other) + (if other == key then |text| else 0)
  {
    var paragraph := SentOf(s.sent, key) == 0 && text != [] && key.message in s.shown;
    var counted := s.(sent := s.sent[key := SentOf(s.sent, key) + |text|],
                      shown := if text == [] then s.shown else s.shown + {key.message});
    Sends(counted, Chunk(key, paragraph, text), other);
  }

  /** Neither text counts nor received texts differ. */
  ghost predicate SameText(s: State, r: State) {
    r.sent == s.sent && forall key :: Delivered(r.log, key) == Delivered(s.log, key)
  }

  lemma SendKeepsText(s: State, update: Update)
    requires !update.Chunk? && !(update.Notice? && update.cause.Retry?)
    ensures SameText(s, Send(s, update))
  {
    forall key
      ensures Delivered(Send(s, update).log, key) == Delivered(s.log, key)
    {
      Sends(s, update, key);
    }
  }

  lemma NoticeKeepsText(s: State, message: Option<string>, text: string)
    ensures SameText(s, SendNotice(s, message, Context(text)))
  {
    SendKeepsText(s, Notice(Context(text), None));
    if message.Some? {
      SendKeepsText(s.(shown := s.shown - {message.value}), Notice(Context(text), message));
    }
  }

  lemma {:induction false} NoticesKeepText(s: State, message: Option<string>, notices: seq<string>)
    ensures SameText(s, SendNotices(s, message, notices))
    decreases |notices|
  {
    if notices != [] {
      var front := notices[..|notices| - 1];
      NoticesKeepText(s, message, front);
      NoticeKeepsText(SendNotices(s, message, front), message, notices[|notices| - 1]);
    }
  }

  lemma CallsKeepText(s: State, callId: CallId)
    ensures SameText(s, Announce(s, callId)) && SameText(s, Report(s, callId))
  {
    SendKeepsText(s.(announced := s.announced + {callId}, open := s.open + {callId}), ToolCall(callId));
    SendKeepsText(s.(open := s.open - {callId}, announced := s.announced + {callId}), ToolResult(callId));
  }

  lemma RestartForgets(s: State, message: string, key: Key)
    ensures
      var r := OnEvent(s, StreamRestarted(message));
      && Delivered(r.log, key) == (if key.message == message then [] else Delivered(s.log, key))
      && SentOf(r.sent, key) == (if key.message == message then 0 else SentOf(s.sent, key))
  {
    var forgot := s.(sent := Forget(s.sent, message));
    Sends(forgot, Notice(Retry(message), None), key);
    Sends(forgot.(shown := s.shown - {message}), Notice(Retry(message), Some(message)), key);
  }

  /** The text an event adds to an item. */
  function Added(event: Event, key: Key): (r: Text) {
    match event
    case ItemStarted(message, index, TextItem(text)) => if Key(message, index) == key then text else []
    case ItemDelta(message, index, delta) => if Key(message, index) == key then delta else []
    case _ => []
  }

  predicate Restarts(event: Event, key: Key) {
    event.StreamRestarted? && event.message == key.message
  }

  lemma ServerTextStep(events: seq<Event>, event: Event, key: Key)
    ensures ServerText(events + [event], key)
         == if Restarts(event, key) then [] else ServerText(events, key) + Added(event, key)
  {
    assert (events + [event])[..|events|] == events;
  }

  /** Events that touch no text. */
  predicate QuietEvent(event: Event) {
    !event.ItemDelta? && !event.StreamRestarted? && !(event.ItemStarted? && event.item.TextItem?)
  }

  lemma QuietEventKeepsText(s: State, event: Event)
    requires QuietEvent(event)
    ensures SameText(s, OnEvent(s, event))
  {
    match event
    case ReasoningDelta(message) => SendKeepsText(s, Thought(message));
    case ContextStateChanged(notifications) => NoticesKeepText(s, s.streaming, notifications);
    case ScriptPrepared(callId) => CallsKeepText(s, callId);
    case ScriptApprovalRequested(callId) => CallsKeepText(s, callId);
    case ScriptStarted(callId) => SendKeepsText(s, ToolProgress(callId));
    case ScriptResultReady(callId) => CallsKeepText(s, callId);
    case _ =>
  }

  /** What an event received does to the client's text of an item. */
  lemma ClientTextStep(s: State, event: Event, key: Key)
    ensures
      var r := OnEvent(s, event);
      if Restarts(event, key) then Delivered(r.log, key) == [] && SentOf(r.sent, key) == 0
      else && Delivered(r.log, key) == Delivered(s.log, key) + Added(event, key)
           && SentOf(r.sent, key) == SentOf(s.sent, key) + |Added(event, key)|
  {
    if event.StreamRestarted? {
      RestartForgets(s, event.message, key);
    } else if event.ItemDelta? {
      ItemTextDelivers(s, Key(event.message, event.index), event.delta, key);
    } else if event.ItemStarted? && event.item.TextItem? {
      ItemTextDelivers(s, Key(event.message, event.index), event.item.text, key);
    } else {
      QuietEventKeepsText(s, event);
    }
  }

  /** An event received changes the client's text exactly as it changed the server's. */
  lemma EventDelivers(s: State, events: seq<Event>, event: Event, key: Key)
    requires Delivered(s.log, key) == ServerText(events, key) && SentOf(s.sent, key) == |Delivered(s.log, key)|
    ensures
      var r := OnEvent(s, event);
      Delivered(r.log, key) == ServerText(events + [event], key) && SentOf(r.sent, key) == |Delivered(r.log, key)|
  {
    ServerTextStep(events, event, key);
    ClientTextStep(s, event, key);
  }

  // Resync ------------------------------------------------------------------

  /** The text a snapshot has for an item. */
  function ItemsText(items: seq<Item>, index: nat): (r: Text) {
    if index < |items| && items[index].TextItem? then items[index].text else []
  }

  function SnapshotText(messages: seq<PromptMessage>, key: Key): (r: Text)
    decreases |messages|
  {
    if messages == [] then [] else
    var last := messages[|messages| - 1];
    if last.id == key.message then if last.content.AssistantItems? then ItemsText(last.content.items, key.index) else []
    else SnapshotText(messages[..|messages| - 1], key)
  }

  predicate DistinctIds(messages: seq<PromptMessage>) {
    forall i, j | 0 <= i < j < |messages| :: messages[i].id != messages[j].id
  }

  /** The client's text of an item grew by `more`, and so did its count. */
  ghost predicate Gained(s: State, r: State, key: Key, more: Bytes) {
    Delivered(r.log, key) == Delivered(s.log, key) + more && SentOf(r.sent, key) == SentOf(s.sent, key) + |more|
  }

  lemma SyncItemGains(s: State, at: Key, item: Item, key: Key)
    ensures Gained(s, SyncItem(s, at, item), key,
                   if at == key && item.TextItem? then Missing(item.text, SentOf(s.sent, key)) else [])
  {
    match item
    case TextItem(text) => ItemTextDelivers(s, at, Missing(text, SentOf(s.sent, at)), key);
    case CallItem(callId) => CallsKeepText(s.(shown := s.shown + {at.message}), callId);
    case ReasoningItem =>
  }

  lemma ItemsTextStep(items: seq<Item>, index: nat)
    requires items != []
    ensures
      var n := |items| - 1;
      && (index != n ==> ItemsText(items, index) == ItemsText(items[..n], index))
      && ItemsText(items[..n], n) == []
      && ItemsText(items, n) == if items[n].TextItem? then items[n].text else []
  {
  }

  /** What an item of a snapshot lacks, given how much of it was sent. */
  function Lacking(items: seq<Item>, id: string, key: Key, sent: nat): (r: Text) {
    if id == key.message then Missing(ItemsText(items, key.index), sent) else []
  }

  lemma LackingStep(items: seq<Item>, id: string, key: Key, sent: nat)
    requires items != []
    ensures
      var n := |items| - 1;
      if Key(id, n) == key then
        && Lacking(items[..n], id, key, sent) == []
        && Lacking(items, id, key, sent) == if items[n].TextItem? then Missing(items[n].text, sent) else []
      else Lacking(items, id, key, sent) == Lacking(items[..n], id, key, sent)
  {
    ItemsTextStep(items, key.index);
    NothingMissing(sent);
  }

  lemma {:induction false} SyncItemsGain(s: State, id: string, items: seq<Item>, key: Key)
    ensures Gained(s, SyncItems(s, id, items), key, Lacking(items, id, key, SentOf(s.sent, key)))
    decreases |items|
  {
    var sent := SentOf(s.sent, key);
    if items == [] {
      NothingMissing(sent);
    } else {
      var n := |items| - 1;
      var mid := SyncItems(s, id, items[..n]);
      SyncItemsGain(s, id, items[..n], key);
      LackingStep(items, id, key, sent);
      OneItemMore(s, mid, Key(id, n), items[n], key, Lacking(items[..n], id, key, sent));
    }
  }

  lemma OneItemMore(s: State, mid: State, at: Key, item: Item, key: Key, before: Bytes)
    requires Gained(s, mid, key, before) && (at == key ==> before == [])
    ensures Gained(s, SyncItem(mid, at, item), key,
                   if at != key then before
                   else if item.TextItem? then Missing(item.text, SentOf(s.sent, key)) else [])
  {
    SyncItemGains(mid, at, item, key);
  }

  lemma SyncMessageGains(s: State, message: PromptMessage, key: Key)
    ensures Gained(s, SyncMessage(s, message), key,
                   if message.id == key.message then Missing(SnapshotText([message], key), SentOf(s.sent, key)) else [])
  {
    match message.content
    case AssistantItems(items) => SyncItemsGain(s, message.id, items, key);
    case CallResult(callId) => CallsKeepText(s, callId);
    case OtherContent =>
  }

  lemma NothingMissing(sent: nat)
    ensures Missing([], sent) == []
  {
  }

  /** Gains add up; at most one of the two is not empty. */
  lemma GainedTwice(s: State, mid: State, r: State, key: Key, a: Bytes, b: Bytes)
    requires Gained(s, mid, key, a) && Gained(mid, r, key, b)
    ensures a == [] ==> Gained(s, r, key, b)
    ensures b == [] ==> Gained(s, r, key, a)
  {
  }

  lemma {:induction false} SyncMessagesGain(s: State, messages: seq<PromptMessage>, key: Key)
    requires DistinctIds(messages)
    ensures Gained(s, SyncMessages(s, messages), key, Missing(SnapshotText(messages, key), SentOf(s.sent, key)))
    decreases |messages|
  {
    if messages == [] {
      NothingMissing(SentOf(s.sent, key));
    } else {
      var front, last := messages[..|messages| - 1], messages[|messages| - 1];
      var mid, r := SyncMessages(s, front), SyncMessages(s, messages);
      SyncMessagesGain(s, front, key);
      SyncMessageGains(mid, last, key);
      var a := Missing(SnapshotText(front, key), SentOf(s.sent, key));
      if last.id == key.message {
        NotAmong(front, key);
        NothingMissing(SentOf(s.sent, key));
        SnapshotOfOne(last, key);
        GainedTwice(s, mid, r, key, a, Missing(SnapshotText([last], key), SentOf(mid.sent, key)));
      } else {
        GainedTwice(s, mid, r, key, a, []);
      }
    }
  }

  lemma SnapshotOfOne(last: PromptMessage, key: Key)
    requires last.id == key.message
    ensures SnapshotText([last], key)
         == if last.content.AssistantItems? then ItemsText(last.content.items, key.index) else []
  {
  }

  lemma {:induction false} NotAmong(messages: seq<PromptMessage>, key: Key)
    requires forall m | m in messages :: m.id != key.message
    ensures SnapshotText(messages, key) == []
    decreases |messages|
  {
    if messages != [] {
      assert messages[|messages| - 1] in messages;
      NotAmong(messages[..|messages| - 1], key);
    }
  }

  /** No message is visited twice on the way back to the prompt's start. */
  lemma {:induction false} WalkDistinct(history: map<string, Entry>, cursor: Option<string>, start: Option<string>,
                                        visited: set<string>)
    requires PromptWalk(history, cursor, start, visited).Some?
    ensures DistinctIds(PromptWalk(history, cursor, start, visited).value)
    ensures forall m | m in PromptWalk(history, cursor, start, visited).value :: m.id !in visited
    decreases history.Keys - visited
  {
    if cursor.Some? && cursor != start && cursor.value in history {
      var rest := PromptWalk(history, history[cursor.value].parent, start, visited + {cursor.value}).value;
      WalkDistinct(history, history[cursor.value].parent, start, visited + {cursor.value});
      assert forall i | 0 <= i < |rest| :: rest[i] in rest;
    }
  }

  /** The fewest bytes that complete the text, and only when what was received begins it. */
  lemma MissingCompletes(received: Bytes, text: Text)
    requires WellFormed(received)
    ensures received + Missing(text, |received|) == text <==> received <= text
  {
    if received <= text {
      PrefixEndsAtBoundary(received, text);
    }
  }

  /**
   * After a resync the client has exactly the snapshot's text of an item if and only if what it
   * had received before begins that text.
   */
  lemma ResyncExact(s: State, snapshot: Snapshot, start: Option<string>, key: Key)
    requires PromptMessages(snapshot, start).Some? && Counted(s)
    ensures
      var messages := PromptMessages(snapshot, start).value;
      var r := Resynced(s, snapshot.eventSequence, messages);
      && SentOf(r.sent, key) == |Delivered(r.log, key)|
      && Delivered(s.log, key) <= Delivered(r.log, key)
      && (Delivered(r.log, key) == SnapshotText(messages, key)
          <==> Delivered(s.log, key) <= SnapshotText(messages, key))
  {
    var messages := PromptMessages(snapshot, start).value;
    WalkDistinct(snapshot.history, snapshot.tip, start, {});
    SyncMessagesGain(Covering(s, snapshot.eventSequence), messages, key);
    MissingCompletes(Delivered(s.log, key), SnapshotText(messages, key));
  }

  // Runs --------------------------------------------------------------------

  /**
   * The session's events so far, numbered from `base + 1`; the receiver has taken or lost the first
   * `position` of them.
   */
  datatype World = World(base: nat, start: Option<string>, events: seq<Event>, position: nat, output: State)

  datatype Step =
    | Produce(event: Event)
    | Deliver
    | Lag(lost: nat, snapshot: Snapshot)
    | CatchUp(snapshot: Snapshot)
    | Approve(callId: CallId)

  /** How many events the client's view reflects. */
  function Reflected(w: World): (n: nat) {
    if w.output.covered >= w.base + w.position then w.output.covered - w.base else w.position
  }

  /** A snapshot holds all messages of the prompt, with the text of exactly the events so far. */
  ghost predicate Coherent(w: World, snapshot: Snapshot) {
    && snapshot.eventSequence == w.base + |w.events|
    && PromptMessages(snapshot, w.start).Some?
    && (forall key :: SnapshotText(PromptMessages(snapshot, w.start).value, key) == ServerText(w.events, key))
  }

  predicate NoRestart(events: seq<Event>) {
    forall e | e in events :: !e.StreamRestarted?
  }

  /** The events a resync would skip. */
  function Unseen(w: World): (r: seq<Event>) {
    if Reflected(w) <= |w.events| then w.events[Reflected(w)..] else []
  }

  ghost predicate Enabled(w: World, step: Step) {
    match step
    case Produce(_) => true
    case Deliver => w.position < |w.events|
    case Lag(lost, snapshot) =>
      0 < lost <= |w.events| - w.position && Coherent(w, snapshot) && NoRestart(Unseen(w))
    case CatchUp(snapshot) => Coherent(w, snapshot) && NoRestart(Unseen(w))
    case Approve(_) => true
  }

  function CaughtUp(w: World, snapshot: Snapshot): (r: State)
    requires PromptMessages(snapshot, w.start).Some?
  {
    Resynced(w.output, snapshot.eventSequence, PromptMessages(snapshot, w.start).value)
  }

  ghost function Next(w: World, step: Step): (r: World)
    requires Enabled(w, step)
  {
    match step
    case Produce(event) => w.(events := w.events + [event])
    case Deliver =>
      var event := w.events[w.position];
      w.(position := w.position + 1,
         output := if Uncovered(w.output, w.base + w.position + 1, event) then OnEvent(w.output, event) else w.output)
    case Lag(lost, snapshot) => w.(position := w.position + lost, output := CaughtUp(w, snapshot))
    case CatchUp(snapshot) => w.(output := CaughtUp(w, snapshot))
    case Approve(callId) => w.(output := Announce(w.output, callId))
  }

  /** The client has the server's text of every item, as of the events it reflects. */
  ghost predicate Inv(w: World) {
    && w.position <= |w.events| && Reflected(w) <= |w.events|
    && (forall key :: Delivered(w.output.log, key) == ServerText(w.events[..Reflected(w)], key)
                      && SentOf(w.output.sent, key) == |Delivered(w.output.log, key)|)
  }

  /** Without a restart the server's text only grows. */
  lemma {:induction false} TextGrows(events: seq<Event>, n: nat, key: Key)
    requires n <= |events| && NoRestart(events[n..])
    ensures ServerText(events[..n], key) <= ServerText(events, key)
    decreases |events|
  {
    if n == |events| {
      assert events[..n] == events;
    } else {
      var front, last := events[..|events| - 1], events[|events| - 1];
      assert last == events[n..][|events| - 1 - n];
      assert forall e | e in front[n..] :: e in events[n..];
      assert front[..n] == events[..n];
      TextGrows(front, n, key);
    }
  }

  lemma CoveredKept(s: State, messages: seq<PromptMessage>)
    ensures SyncMessages(s, messages).covered == s.covered
    decreases |messages|
  {
    if messages != [] {
      var front, last := messages[..|messages| - 1], messages[|messages| - 1];
      CoveredKept(s, front);
      if last.content.AssistantItems? {
        ItemsKeepCovered(SyncMessages(s, front), last.id, last.content.items);
      }
    }
  }

  lemma ItemsKeepCovered(s: State, id: string, items: seq<Item>)
    ensures SyncItems(s, id, items).covered == s.covered
    decreases |items|
  {
    if items != [] {
      ItemsKeepCovered(s, id, items[..|items| - 1]);
    }
  }

  lemma NoticesKeepCovered(s: State, message: Option<string>, notices: seq<string>)
    ensures SendNotices(s, message, notices).covered == s.covered
    decreases |notices|
  {
    if notices != [] {
      NoticesKeepCovered(s, message, notices[..|notices| - 1]);
    }
  }

  lemma EventKeepsCovered(s: State, event: Event)
    ensures OnEvent(s, event).covered == s.covered
  {
    if event.ContextStateChanged? {
      NoticesKeepCovered(s, s.streaming, event.notifications);
    }
  }

  lemma CatchUpKeeps(w: World, snapshot: Snapshot, position: nat)
    requires Inv(w) && Coherent(w, snapshot) && NoRestart(Unseen(w))
    requires w.position <= position <= |w.events|
    ensures Inv(w.(position := position, output := CaughtUp(w, snapshot)))
    ensures Reflected(w.(position := position, output := CaughtUp(w, snapshot))) == |w.events|
  {
    var messages := PromptMessages(snapshot, w.start).value;
    var w' := w.(position := position, output := CaughtUp(w, snapshot));
    CoveredKept(Covering(w.output, snapshot.eventSequence), messages);
    assert w.events[..|w.events|] == w.events;
    forall key
      ensures Delivered(w'.output.log, key) == ServerText(w.events, key)
      ensures SentOf(w'.output.sent, key) == |Delivered(w'.output.log, key)|
    {
      ResyncExact(w.output, snapshot, w.start, key);
      TextGrows(w.events, Reflected(w), key);
    }
  }

  lemma DeliverKeeps(w: World)
    requires Inv(w) && w.position < |w.events|
    ensures Inv(Next(w, Deliver))
  {
    var w' := Next(w, Deliver);
    var event := w.events[w.position];
    assert w.events[..w.position + 1] == w.events[..w.position] + [event];
    if Uncovered(w.output, w.base + w.position + 1, event) {
      EventKeepsCovered(w.output, event);
      forall key
        ensures Delivered(w'.output.log, key) == ServerText(w.events[..w.position + 1], key)
        ensures SentOf(w'.output.sent, key) == |Delivered(w'.output.log, key)|
      {
        EventDelivers(w.output, w.events[..w.position], event, key);
      }
    } else if Reflected(w) == w.position {
      forall key
        ensures ServerText(w.events[..w.position + 1], key) == ServerText(w.events[..w.position], key)
      {
        assert (w.events[..w.position] + [event])[..w.position] == w.events[..w.position];
      }
    }
  }

  lemma ApproveKeeps(w: World, callId: CallId)
    requires Inv(w)
    ensures Inv(Next(w, Approve(callId)))
  {
    CallsKeepText(w.output, callId);
  }

  lemma ProduceKeeps(w: World, event: Event)
    requires Inv(w)
    ensures Inv(Next(w, Produce(event)))
  {
    assert (w.events + [event])[..Reflected(w)] == w.events[..Reflected(w)];
  }

  lemma InvStep(w: World, step: Step)
    requires Inv(w) && Enabled(w, step)
    ensures Inv(Next(w, step))
  {
    match step
    case Produce(event) => ProduceKeeps(w, event);
    case Deliver => DeliverKeeps(w);
    case Lag(lost, snapshot) => CatchUpKeeps(w, snapshot, w.position + lost);
    case CatchUp(snapshot) => CatchUpKeeps(w, snapshot, w.position);
    case Approve(callId) => ApproveKeeps(w, callId);
  }

  ghost predicate Valid(w: World, steps: seq<Step>)
    decreases |steps|
  {
    steps == [] || (Enabled(w, steps[0]) && Valid(Next(w, steps[0]), steps[1..]))
  }

  ghost function After(w: World, steps: seq<Step>): (r: World)
    requires Valid(w, steps)
    decreases |steps|
  {
    if steps == [] then w else After(Next(w, steps[0]), steps[1..])
  }

  lemma {:induction false} InvRun(w: World, steps: seq<Step>)
    requires Inv(w) && Valid(w, steps)
    ensures Inv(After(w, steps))
    decreases |steps|
  {
    if steps != [] {
      InvStep(w, steps[0]);
      InvRun(Next(w, steps[0]), steps[1..]);
    }
  }

  /**
   * However the events were delivered, lost and recovered, no byte of any item is missing or
   * repeated: the client has the server's text of the events it reflects, and all of it once the
   * channel is drained or a resync has just been made.
   */
  lemma LossyRefinesLossless(base: nat, start: Option<string>, steps: seq<Step>, key: Key)
    requires Valid(World(base, start, [], 0, START), steps)
    ensures
      var w := After(World(base, start, [], 0, START), steps);
      && w.position <= Reflected(w) <= |w.events|
      && Delivered(w.output.log, key) == ServerText(w.events[..Reflected(w)], key)
      && SentOf(w.output.sent, key) == |Delivered(w.output.log, key)|
      && (Reflected(w) == |w.events| ==> Delivered(w.output.log, key) == ServerText(w.events, key))
  {
    var w := After(World(base, start, [], 0, START), steps);
    InvRun(World(base, start, [], 0, START), steps);
    assert w.events[..|w.events|] == w.events;
  }

  // Any sequence of calls, coherent or not ----------------------------------

  datatype Call = Handle(event: Event) | Sync(snapshot: Snapshot) | Ask(callId: CallId)

  /** A cyclic snapshot, which the source would follow for ever, leaves the state alone here. */
  function Do(s: State, start: Option<string>, call: Call): (r: State) {
    match call
    case Handle(event) => OnEvent(s, event)
    case Sync(snapshot) =>
      var messages := PromptMessages(snapshot, start);
      if messages.None? then s else Resynced(s, snapshot.eventSequence, messages.value)
    case Ask(callId) => Announce(s, callId)
  }

  function DoAll(s: State, start: Option<string>, calls: seq<Call>): (r: State)
    decreases |calls|
  {
    if calls == [] then s else DoAll(Do(s, start, calls[0]), start, calls[1..])
  }

  lemma EventCounted(s: State, event: Event)
    requires Counted(s)
    ensures Counted(OnEvent(s, event))
  {
    forall key
      ensures SentOf(OnEvent(s, event).sent, key) == |Delivered(OnEvent(s, event).log, key)|
      ensures WellFormed(Delivered(OnEvent(s, event).log, key))
    {
      ClientTextStep(s, event, key);
      Concat(Delivered(s.log, key), Added(event, key));
    }
  }

  lemma CallCounted(s: State, start: Option<string>, call: Call)
    requires Counted(s)
    ensures Counted(Do(s, start, call))
  {
    match call
    case Handle(event) => EventCounted(s, event);
    case Sync(snapshot) =>
      if PromptMessages(snapshot, start).Some? {
        var messages := PromptMessages(snapshot, start).value;
        WalkDistinct(snapshot.history, snapshot.tip, start, {});
        var s' := Covering(s, snapshot.eventSequence);
        forall key
          ensures SentOf(SyncMessages(s', messages).sent, key) == |Delivered(SyncMessages(s', messages).log, key)|
          ensures WellFormed(Delivered(SyncMessages(s', messages).log, key))
        {
          SyncMessagesGain(s', messages, key);
          Concat(Delivered(s.log, key), Missing(SnapshotText(messages, key), SentOf(s.sent, key)));
        }
      }
    case Ask(callId) => CallsKeepText(s, callId);
  }

  /** In every reachable state the counts match what was sent, so `ResyncExact` applies to it. */
  lemma {:induction false} CountsStayExact(s: State, start: Option<string>, calls: seq<Call>)
    requires Counted(s)
    ensures Counted(DoAll(s, start, calls))
    decreases |calls|
  {
    if calls != [] {
      CallCounted(s, start, calls[0]);
      CountsStayExact(Do(s, start, calls[0]), start, calls[1..]);
    }
  }

  /**
   * Restarts allowed: catching up gives the client the server's text of an item if and only if the text as of the
   * events reflected so far begins it. Without a restart among the skipped events `TextGrows` says that it does.
   */
  lemma CatchUpExact(w: World, snapshot: Snapshot, key: Key)
    requires Inv(w) && Coherent(w, snapshot)
    ensures Delivered(CaughtUp(w, snapshot).log, key) == ServerText(w.events, key)
       <==> ServerText(w.events[..Reflected(w)], key) <= ServerText(w.events, key)
  {
    ResyncExact(w.output, snapshot, w.start, key);
  }

  /** Text `a` is delivered; then the message is restarted and becomes `b` while the client lags. */
  function Restart(m: string, a: Text, b: Text): (r: seq<Event>) {
    [ItemDelta(m, 0, a), StreamRestarted(m), ItemDelta(m, 0, b)]
  }

  function Lagging(base: nat, m: string, a: Text, b: Text): (w: World) {
    World(base, None, Restart(m, a, b), 1, ItemText(START, Key(m, 0), a))
  }

  function Restarted(base: nat, m: string, b: Text): (r: Snapshot) {
    Snapshot(base + 3, Some(m), map[m := Entry(None, AssistantItems([TextItem(b)]))])
  }

  lemma RestartTexts(m: string, a: Text, b: Text, key: Key)
    ensures ServerText(Restart(m, a, b)[..1], key) == if key == Key(m, 0) then a else []
    ensures ServerText(Restart(m, a, b), key) == if key == Key(m, 0) then b else []
  {
    var e := Restart(m, a, b);
    assert e[..1][..0] == [] && e[..2][..1] == e[..1] && e[..|e| - 1] == e[..2];
    assert ServerText(e[..1][..0], key) == [];
    assert ServerText(e[..1], key) == if key == Key(m, 0) then [] + a else [];
    assert ServerText(e[..2], key) == if key.message == m then [] else ServerText(e[..1], key);
    assert ServerText(e, key) == if key == Key(m, 0) then [] + b else ServerText(e[..2], key);
  }

  lemma RestartedMessages(base: nat, m: string, b: Text)
    ensures PromptMessages(Restarted(base, m, b), None) == Some([PromptMessage(m, AssistantItems([TextItem(b)]))])
  {
    var history, message := Restarted(base, m, b).history, PromptMessage(m, AssistantItems([TextItem(b)]));
    assert PromptWalk(history, None, None, {} + {m}) == Some([]);
    assert PromptWalk(history, Some(m), None, {}) == Some([message] + []);
    assert [message] + [] == [message] && Reverse([message]) == [message];
  }

  lemma LaggingText(m: string, a: Text, key: Key)
    ensures
      var s := ItemText(START, Key(m, 0), a);
      && Delivered(s.log, key) == (if key == Key(m, 0) then a else [])
      && SentOf(s.sent, key) == |Delivered(s.log, key)| && s.covered == 0
  {
    ItemTextDelivers(START, Key(m, 0), a, key);
  }

  lemma LaggingInv(base: nat, m: string, a: Text, b: Text)
    ensures Inv(Lagging(base, m, a, b)) && Reflected(Lagging(base, m, a, b)) == 1
  {
    var w := Lagging(base, m, a, b);
    LaggingText(m, a, Key(m, 0));
    forall key
      ensures Delivered(w.output.log, key) == ServerText(w.events[..1], key)
      ensures SentOf(w.output.sent, key) == |Delivered(w.output.log, key)|
    {
      LaggingText(m, a, key);
      RestartTexts(m, a, b, key);
    }
  }

  lemma RestartedText(m: string, a: Text, b: Text, message: PromptMessage, key: Key)
    requires message == PromptMessage(m, AssistantItems([TextItem(b)]))
    ensures SnapshotText([message], key) == ServerText(Restart(m, a, b), key)
  {
    RestartTexts(m, a, b, key);
    if key.message == m {
      SnapshotOfOne(message, key);
    } else {
      NotAmong([message], key);
    }
  }

  lemma RestartedCoherent(base: nat, m: string, a: Text, b: Text)
    ensures Coherent(Lagging(base, m, a, b), Restarted(base, m, b))
  {
    RestartedMessages(base, m, b);
    var message := PromptMessage(m, AssistantItems([TextItem(b)]));
    forall key
      ensures SnapshotText([message], key) == ServerText(Restart(m, a, b), key)
    {
      RestartedText(m, a, b, message, key);
    }
  }

  lemma GarbledText(s: State, base: nat, m: string, a: Text, b: Text)
    requires s == ItemText(START, Key(m, 0), a)
    ensures
      var messages := PromptMessages(Restarted(base, m, b), None);
      messages.Some? && Delivered(Resynced(s, base + 3, messages.value).log, Key(m, 0)) == a + Missing(b, |a|)
  {
    RestartedMessages(base, m, b);
    LaggingText(m, a, Key(m, 0));
    GarbledResync(s, base + 3, Key(m, 0), b);
  }

  lemma RestartUnseen(base: nat, m: string, a: Text, b: Text)
    ensures StreamRestarted(m) in Unseen(Lagging(base, m, a, b))
  {
    LaggingInv(base, m, a, b);
    assert Unseen(Lagging(base, m, a, b))[0] == StreamRestarted(m);
  }

  /**
   * A restart among the skipped events: the client keeps the old text and is sent the end of the new one from the
   * old text's length on. That is the server's text if and only if the old text begins the new one.
   */
  lemma SkippedRestartGarbles(base: nat, m: string, a: Text, b: Text)
    ensures
      var w, snapshot, key := Lagging(base, m, a, b), Restarted(base, m, b), Key(m, 0);
      && Inv(w) && Coherent(w, snapshot) && StreamRestarted(m) in Unseen(w) && ServerText(w.events, key) == b
      && Delivered(CaughtUp(w, snapshot).log, key) == a + Missing(b, |a|)
      && (Delivered(CaughtUp(w, snapshot).log, key) == b <==> a <= b)
  {
    LaggingInv(base, m, a, b);
    RestartUnseen(base, m, a, b);
    RestartedCoherent(base, m, a, b);
    RestartTexts(m, a, b, Key(m, 0));
    GarbledText(ItemText(START, Key(m, 0), a), base, m, a, b);
    MissingCompletes(a, b);
  }

  /** After "ab" the client is sent the "z" of "xyz". */
  lemma GarbledExample(base: nat, m: string, ab: Text, xyz: Text)
    requires ab == [97, 98] && xyz == [120, 121, 122]
    ensures PromptMessages(Restarted(base, m, xyz), None).Some?
    ensures Delivered(CaughtUp(Lagging(base, m, ab, xyz), Restarted(base, m, xyz)).log, Key(m, 0)) == [97, 98, 122]
  {
    SkippedRestartGarbles(base, m, ab, xyz);
    MissingEnd(xyz);
  }

  lemma MissingEnd(text: Text)
    requires text == [120, 121, 122]
    ensures Missing(text, 2) == [122]
  {
  }

  lemma GarbledResync(s: State, sequence: nat, key: Key, text: Text)
    requires key.index == 0 && s.covered <= sequence
    ensures
      var r := Resynced(s, sequence, [PromptMessage(key.message, AssistantItems([TextItem(text)]))]);
      Delivered(r.log, key) == Delivered(s.log, key) + Missing(text, SentOf(s.sent, key))
  {
    var message := PromptMessage(key.message, AssistantItems([TextItem(text)]));
    SyncMessagesGain(Covering(s, sequence), [message], key);
    SnapshotOfOne(message, key);
  }

  // Tool calls --------------------------------------------------------------

  datatype Mark = Called | Resulted

  /** What the client was told about a call, in order. */
  function Marks(log: seq<Update>, callId: CallId): (r: seq<Mark>)
    decreases |log|
  {
    if log == [] then [] else
    var last := log[|log| - 1];
    Marks(log[..|log| - 1], callId)
    + (if last == ToolCall(callId) then [Called] else if last == ToolResult(callId) then [Resulted] else [])
  }

  /** What the program hears about a call: that it is prepared, or that its result is ready. */
  datatype Signal = Prepared | Ready

  function SignalOf(signal: Signal, other: CallId, callId: CallId): (r: seq<Signal>) {
    if other == callId then [signal] else []
  }

  function EventSignals(event: Event, callId: CallId): (r: seq<Signal>) {
    match event
    case ScriptPrepared(other) => SignalOf(Prepared, other, callId)
    case ScriptApprovalRequested(other) => SignalOf(Prepared, other, callId)
    case ScriptResultReady(other) => SignalOf(Ready, other, callId)
    case _ => []
  }

  function ItemSignals(items: seq<Item>, callId: CallId): (r: seq<Signal>)
    decreases |items|
  {
    if items == [] then [] else
    var last := items[|items| - 1];
    ItemSignals(items[..|items| - 1], callId) + (if last.CallItem? then SignalOf(Prepared, last.callId, callId) else [])
  }

  function ContentSignals(content: Content, callId: CallId): (r: seq<Signal>) {
    match content
    case AssistantItems(items) => ItemSignals(items, callId)
    case CallResult(other) => SignalOf(Ready, other, callId)
    case OtherContent => []
  }

  function MessageSignals(messages: seq<PromptMessage>, callId: CallId): (r: seq<Signal>)
    decreases |messages|
  {
    if messages == [] then []
    else MessageSignals(messages[..|messages| - 1], callId)
         + ContentSignals(messages[|messages| - 1].content, callId)
  }

  function CallSignals(start: Option<string>, call: Call, callId: CallId): (r: seq<Signal>) {
    match call
    case Handle(event) => EventSignals(event, callId)
    case Sync(snapshot) =>
      var messages := PromptMessages(snapshot, start);
      if messages.None? then [] else MessageSignals(messages.value, callId)
    case Ask(other) => SignalOf(Prepared, other, callId)
  }

  function AllSignals(start: Option<string>, calls: seq<Call>, callId: CallId): (r: seq<Signal>)
    decreases |calls|
  {
    if calls == [] then []
    else CallSignals(start, calls[0], callId) + AllSignals(start, calls[1..], callId)
  }

  /** What a client must be told: of the call if that was heard first, and of the result once one is ready. */
  function Told(heard: seq<Signal>): (r: seq<Mark>) {
    if heard == [] then []
    else (if heard[0] == Prepared then [Called] else []) + (if Ready in heard then [Resulted] else [])
  }

  ghost predicate Tracked(s: State, callId: CallId, heard: seq<Signal>) {
    && Marks(s.log, callId) == Told(heard)
    && (callId in s.announced <==> heard != []) && (callId in s.open <==> heard != [] && Ready !in heard)
  }

  lemma SendMarks(s: State, update: Update, callId: CallId)
    ensures Marks(Send(s, update).log, callId)
         == Marks(s.log, callId)
            + (if update == ToolCall(callId) then [Called] else if update == ToolResult(callId) then [Resulted] else [])
  {
    assert (s.log + [update])[..|s.log|] == s.log;
  }

  lemma SendTracked(s: State, update: Update, callId: CallId, heard: seq<Signal>)
    requires Tracked(s, callId, heard) && !update.ToolCall? && !update.ToolResult?
    ensures Tracked(Send(s, update), callId, heard)
  {
    SendMarks(s, update, callId);
  }

  lemma ToldMore(heard: seq<Signal>)
    ensures Told(heard + [Prepared]) == if heard == [] then [Called] else Told(heard)
    ensures Told(heard + [Ready]) == if heard == [] then [Resulted]
                                     else if Ready in heard then Told(heard) else Told(heard) + [Resulted]
    ensures Ready in heard + [Ready] && (Ready in heard + [Prepared] <==> Ready in heard)
  {
    assert (heard + [Ready])[|heard|] == Ready && (heard + [Prepared])[|heard|] == Prepared;
    if heard != [] {
      assert (heard + [Ready])[0] == heard[0] && (heard + [Prepared])[0] == heard[0];
    }
  }

  /** What concerns another call changes nothing about this one. */
  lemma OtherTracked(s: State, other: CallId, callId: CallId, heard: seq<Signal>)
    requires Tracked(s, callId, heard) && other != callId
    ensures Tracked(Announce(s, other), callId, heard) && Tracked(Report(s, other), callId, heard)
  {
    SendMarks(s.(announced := s.announced + {other}, open := s.open + {other}), ToolCall(other), callId);
    SendMarks(s.(open := s.open - {other}, announced := s.announced + {other}), ToolResult(other), callId);
  }

  lemma AnnounceTracked(s: State, other: CallId, callId: CallId, heard: seq<Signal>)
    requires Tracked(s, callId, heard)
    ensures Tracked(Announce(s, other), callId, heard + SignalOf(Prepared, other, callId))
  {
    if other != callId {
      OtherTracked(s, other, callId, heard);
      assert heard + [] == heard;
    } else {
      ToldMore(heard);
      SendMarks(s.(announced := s.announced + {other}, open := s.open + {other}), ToolCall(other), callId);
    }
  }

  lemma ReportTracked(s: State, other: CallId, callId: CallId, heard: seq<Signal>)
    requires Tracked(s, callId, heard)
    ensures Tracked(Report(s, other), callId, heard + SignalOf(Ready, other, callId))
  {
    if other != callId {
      OtherTracked(s, other, callId, heard);
      assert heard + [] == heard;
    } else {
      ToldMore(heard);
      SendMarks(s.(open := s.open - {other}, announced := s.announced + {other}), ToolResult(other), callId);
    }
  }

  lemma ItemTextTracked(s: State, key: Key, text: Text, callId: CallId, heard: seq<Signal>)
    requires Tracked(s, callId, heard)
    ensures Tracked(ItemText(s, key, text), callId, heard)
  {
    var paragraph := SentOf(s.sent, key) == 0 && text != [] && key.message in s.shown;
    var counted := s.(sent := s.sent[key := SentOf(s.sent, key) + |text|],
                      shown := if text == [] then s.shown else s.shown + {key.message});
    SendTracked(counted, Chunk(key, paragraph, text), callId, heard);
  }

  lemma NoticeTracked(s: State, message: Option<string>, cause: Cause, callId: CallId, heard: seq<Signal>)
    requires Tracked(s, callId, heard)
    ensures Tracked(SendNotice(s, message, cause), callId, heard)
  {
    SendTracked(s, Notice(cause, None), callId, heard);
    if message.Some? {
      SendTracked(s.(shown := s.shown - {message.value}), Notice(cause, message), callId, heard);
    }
  }

  lemma {:induction false} NoticesTracked(s: State, message: Option<string>, notices: seq<string>, callId: CallId,
                                          heard: seq<Signal>)
    requires Tracked(s, callId, heard)
    ensures Tracked(SendNotices(s, message, notices), callId, heard)
    decreases |notices|
  {
    if notices != [] {
      var front := notices[..|notices| - 1];
      NoticesTracked(s, message, front, callId, heard);
      NoticeTracked(SendNotices(s, message, front), message, Context(notices[|notices| - 1]), callId, heard);
    }
  }

  predicate AboutCalls(event: Event) {
    event.ScriptPrepared? || event.ScriptApprovalRequested? || event.ScriptResultReady?
  }

  lemma OtherEventTracked(s: State, event: Event, callId: CallId, heard: seq<Signal>)
    requires Tracked(s, callId, heard) && !AboutCalls(event)
    ensures Tracked(OnEvent(s, event), callId, heard)
  {
    match event
    case ItemStarted(message, index, TextItem(text)) => ItemTextTracked(s, Key(message, index), text, callId, heard);
    case ItemDelta(message, index, delta) => ItemTextTracked(s, Key(message, index), delta, callId, heard);
    case StreamRestarted(message) =>
      NoticeTracked(s.(sent := Forget(s.sent, message)), Some(message), Retry(message), callId, heard);
    case ReasoningDelta(message) => SendTracked(s, Thought(message), callId, heard);
    case ContextStateChanged(notifications) => NoticesTracked(s, s.streaming, notifications, callId, heard);
    case ScriptStarted(other) => SendTracked(s, ToolProgress(other), callId, heard);
    case _ =>
  }

  lemma EventTracked(s: State, event: Event, callId: CallId, heard: seq<Signal>)
    requires Tracked(s, callId, heard)
    ensures Tracked(OnEvent(s, event), callId, heard + EventSignals(event, callId))
  {
    match event
    case ScriptPrepared(other) => AnnounceTracked(s, other, callId, heard);
    case ScriptApprovalRequested(other) => AnnounceTracked(s, other, callId, heard);
    case ScriptResultReady(other) => ReportTracked(s, other, callId, heard);
    case _ =>
      OtherEventTracked(s, event, callId, heard);
      assert heard + [] == heard;
  }

  lemma {:induction false} ItemsTracked(s: State, id: string, items: seq<Item>, callId: CallId, heard: seq<Signal>)
    requires Tracked(s, callId, heard)
    ensures Tracked(SyncItems(s, id, items), callId, heard + ItemSignals(items, callId))
    decreases |items|
  {
    if items == [] {
      assert heard + ItemSignals(items, callId) == heard;
    } else {
      var n := |items| - 1;
      var before := heard + ItemSignals(items[..n], callId);
      ItemsTracked(s, id, items[..n], callId, heard);
      var mid := SyncItems(s, id, items[..n]);
      match items[n]
      case TextItem(text) =>
        assert heard + ItemSignals(items, callId) == before;
        ItemTextTracked(mid, Key(id, n), Missing(text, SentOf(mid.sent, Key(id, n))), callId, before);
      case CallItem(other) =>
        assert heard + ItemSignals(items, callId) == before + SignalOf(Prepared, other, callId);
        AnnounceTracked(mid.(shown := mid.shown + {id}), other, callId, before);
      case ReasoningItem =>
        assert heard + ItemSignals(items, callId) == before;
    }
  }

  lemma Assoc<T>(a: seq<T>, b: seq<T>, c: seq<T>)
    ensures a + (b + c) == (a + b) + c
  {
  }

  lemma MessageTracked(s: State, message: PromptMessage, callId: CallId, heard: seq<Signal>)
    requires Tracked(s, callId, heard)
    ensures Tracked(SyncMessage(s, message), callId, heard + ContentSignals(message.content, callId))
  {
    match message.content
    case AssistantItems(items) => ItemsTracked(s, message.id, items, callId, heard);
    case CallResult(other) => ReportTracked(s, other, callId, heard);
    case OtherContent => assert heard + [] == heard;
  }

  lemma {:induction false} MessagesTracked(s: State, messages: seq<PromptMessage>, callId: CallId, heard: seq<Signal>)
    requires Tracked(s, callId, heard)
    ensures Tracked(SyncMessages(s, messages), callId, heard + MessageSignals(messages, callId))
    decreases |messages|
  {
    if messages == [] {
      assert heard + MessageSignals(messages, callId) == heard;
    } else {
      var front, last := messages[..|messages| - 1], messages[|messages| - 1];
      MessagesTracked(s, front, callId, heard);
      MessageTracked(SyncMessages(s, front), last, callId, heard + MessageSignals(front, callId));
      Assoc(heard, MessageSignals(front, callId), ContentSignals(last.content, callId));
    }
  }

  lemma DoTracked(s: State, start: Option<string>, call: Call, callId: CallId, heard: seq<Signal>)
    requires Tracked(s, callId, heard)
    ensures Tracked(Do(s, start, call), callId, heard + CallSignals(start, call, callId))
  {
    match call
    case Handle(event) => EventTracked(s, event, callId, heard);
    case Sync(snapshot) =>
      if PromptMessages(snapshot, start).Some? {
        MessagesTracked(Covering(s, snapshot.eventSequence), PromptMessages(snapshot, start).value, callId, heard);
      } else {
        assert heard + CallSignals(start, call, callId) == heard;
      }
    case Ask(other) => AnnounceTracked(s, other, callId, heard);
  }

  lemma {:induction false} TrackedRun(s: State, start: Option<string>, calls: seq<Call>, callId: CallId,
                                      heard: seq<Signal>)
    requires Tracked(s, callId, heard)
    ensures Tracked(DoAll(s, start, calls), callId, heard + AllSignals(start, calls, callId))
    decreases |calls|
  {
    if calls == [] {
      assert heard + AllSignals(start, calls, callId) == heard;
    } else {
      DoTracked(s, start, calls[0], callId, heard);
      var now := heard + CallSignals(start, calls[0], callId);
      TrackedRun(Do(s, start, calls[0]), start, calls[1..], callId, now);
      Assoc(heard, CallSignals(start, calls[0], callId), AllSignals(start, calls[1..], callId));
    }
  }

  /**
   * Whatever the client does with events and snapshots, in any order and however often: it is told of a call
   * exactly when a call is the first that was heard of it, and of its result exactly when one was ready, each
   * once and the call first; a call is open exactly when something was heard of it and no result.
   */
  lemma CallsReportedOnce(start: Option<string>, calls: seq<Call>, callId: CallId)
    ensures
      var s, heard := DoAll(START, start, calls), AllSignals(start, calls, callId);
      && Marks(s.log, callId)
         == (if heard != [] && heard[0] == Prepared then [Called] else []) + (if Ready in heard then [Resulted] else [])
      && (callId in s.announced <==> heard != []) && (callId in s.open <==> heard != [] && Ready !in heard)
  {
    TrackedRun(START, start, calls, callId, []);
    assert [] + AllSignals(start, calls, callId) == AllSignals(start, calls, callId);
  }
}
