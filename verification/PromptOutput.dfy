/**
 * Delivering a prompt's answer over the Agent Client Protocol. Events come from a
 * channel that may drop some; a snapshot of the session then fills the gap. What
 * was sent for each text item is remembered as a byte count.
 */
module PromptOutput {
  import opened Types
  import opened Utf8

  type CallId = string

  /** An assistant text item: message and position. */
  datatype Key = Key(message: string, index: nat)

  datatype Item = TextItem(text: Text) | CallItem(callId: CallId) | ReasoningItem

  datatype Event =
    | ItemStarted(message: string, index: nat, item: Item)
    | ItemDelta(message: string, index: nat, delta: Text)
    | ReasoningDelta(message: string)
    | StreamStart(message: string)
    | StreamRestarted(message: string)
    | ContextStateChanged(notifications: seq<string>)
    | ScriptPrepared(callId: CallId)
    | ScriptApprovalRequested(callId: CallId)
    | ScriptStarted(callId: CallId)
    | ScriptResultReady(callId: CallId)
    | OtherEvent
    | OtherSession

  datatype Cause = Retry(message: string) | Context(text: string)

  /**
   * A notification to the client. `Chunk` names the item its text belongs to; a paragraph break
   * stands before the text when `paragraph` is set. A notice is `attached` when it carries the
   * identifier of the message it interrupts.
   */
  datatype Update =
    | Chunk(key: Key, paragraph: bool, text: Text)
    | Notice(cause: Cause, attached: Option<string>)
    | Thought(message: string)
    | ToolCall(callId: CallId)
    | ToolProgress(callId: CallId)
    | ToolResult(callId: CallId)

  datatype Content = AssistantItems(items: seq<Item>) | CallResult(callId: CallId) | OtherContent

  datatype Entry = Entry(parent: Option<string>, content: Content)

  datatype Snapshot = Snapshot(eventSequence: nat, tip: Option<string>, history: map<string, Entry>)

  type Sent = map<Key, nat>

  /** The fields of `Output` and everything it has sent. */
  datatype State = State(
    sent: Sent,
    shown: set<string>,
    announced: set<CallId>,
    open: set<CallId>,
    covered: nat,
    streaming: Option<string>,
    openText: Option<string>,
    log: seq<Update>)

  const START: State := State(map[], {}, {}, {}, 0, None, None, [])

  function SentOf(sent: Sent, key: Key): (n: nat) {
    if key in sent then sent[key] else 0
  }

  function OpenTextAfter(update: Update): (r: Option<string>) {
    match update
    case Chunk(key, _, _) => Some(key.message)
    case Notice(_, attached) => attached
    case _ => None
  }

  function Send(s: State, update: Update): (r: State) {
    s.(openText := OpenTextAfter(update), log := s.log + [update])
  }

  function ItemText(s: State, key: Key, text: Text): (r: State) {
    var paragraph := SentOf(s.sent, key) == 0 && text != [] && key.message in s.shown;
    var counted := s.(sent := s.sent[key := SentOf(s.sent, key) + |text|],
                      shown := if text == [] then s.shown else s.shown + {key.message});
    if text == [] then counted else Send(counted, Chunk(key, paragraph, text))
  }

  function SendNotice(s: State, message: Option<string>, cause: Cause): (r: State) {
    if message.Some? && s.openText == message
    then Send(s.(shown := s.shown - {message.value}), Notice(cause, message))
    else Send(s, Notice(cause, None))
  }

  function SendNotices(s: State, message: Option<string>, notices: seq<string>): (r: State)
    decreases |notices|
  {
    if notices == [] then s
    else SendNotice(SendNotices(s, message, notices[..|notices| - 1]), message, Context(notices[|notices| - 1]))
  }

  function Announce(s: State, callId: CallId): (r: State) {
    if callId in s.announced then s
    else Send(s.(announced := s.announced + {callId}, open := s.open + {callId}), ToolCall(callId))
  }

  function Report(s: State, callId: CallId): (r: State) {
    if callId in s.open || callId !in s.announced
    then Send(s.(open := s.open - {callId}, announced := s.announced + {callId}), ToolResult(callId))
    else s
  }

  function Forget(sent: Sent, message: string): (r: Sent) {
    map k | k in sent && k.message != message :: sent[k]
  }

  function OnEvent(s: State, event: Event): (r: State) {
    match event
    case ItemStarted(message, index, TextItem(text)) => ItemText(s, Key(message, index), text)
    case ItemStarted(message, _, CallItem(_)) => s.(shown := s.shown + {message})
    case ItemStarted(_, _, ReasoningItem) => s
    case ItemDelta(message, index, delta) => ItemText(s, Key(message, index), delta)
    case ReasoningDelta(message) => Send(s, Thought(message))
    case StreamStart(message) => s.(streaming := Some(message))
    case StreamRestarted(message) => SendNotice(s.(sent := Forget(s.sent, message)), Some(message), Retry(message))
    case ContextStateChanged(notifications) => SendNotices(s, s.streaming, notifications)
    case ScriptPrepared(callId) => Announce(s, callId)
    case ScriptApprovalRequested(callId) => Announce(s, callId)
    case ScriptStarted(callId) => Send(s, ToolProgress(callId))
    case ScriptResultReady(callId) => Report(s, callId)
    case OtherEvent => s
    case OtherSession => s
  }

  predicate Uncovered(s: State, sequence: nat, event: Event) {
    sequence > s.covered && event != OtherSession
  }

  // Resync ------------------------------------------------------------------

  /** What a text has beyond its first `sent` bytes; nothing if that is no place to cut it. */
  function Missing(text: Text, sent: nat): (r: Text) {
    if sent <= |text| && Boundary(text, sent) then
      Cut(text, sent);
      text[sent..]
    else []
  }

  datatype PromptMessage = PromptMessage(id: string, content: Content)

  /** From the cursor back to where the prompt began, newest first; nothing for a cyclic snapshot. */
  function PromptWalk(history: map<string, Entry>, cursor: Option<string>, start: Option<string>, visited: set<string>)
    : (r: Option<seq<PromptMessage>>)
    decreases history.Keys - visited
  {
    if cursor.None? || cursor == start || cursor.value !in history then Some([])
    else if cursor.value in visited then None
    else
      var entry := history[cursor.value];
      var rest := PromptWalk(history, entry.parent, start, visited + {cursor.value});
      if rest.None? then None else Some([PromptMessage(cursor.value, entry.content)] + rest.value)
  }

  function Reverse(messages: seq<PromptMessage>): (r: seq<PromptMessage>)
    ensures |r| == |messages|
    ensures forall i | 0 <= i < |r| :: r[i] == messages[|messages| - 1 - i]
  {
    seq(|messages|, i requires 0 <= i < |messages| => messages[|messages| - 1 - i])
  }

  function PromptMessages(snapshot: Snapshot, start: Option<string>): (r: Option<seq<PromptMessage>>) {
    var walk := PromptWalk(snapshot.history, snapshot.tip, start, {});
    if walk.None? then None else Some(Reverse(walk.value))
  }

  /** The loop that collects the prompt's messages goes on at `cursor`. */
  predicate GoesOn(history: map<string, Entry>, start: Option<string>, cursor: Option<string>) {
    cursor.Some? && cursor != start && cursor.value in history
  }

  /** Where the loop stands after `n` rounds. */
  function CursorAfter(history: map<string, Entry>, cursor: Option<string>, n: nat): (r: Option<string>)
    decreases n
  {
    if n == 0 || cursor.None? || cursor.value !in history then cursor
    else CursorAfter(history, history[cursor.value].parent, n - 1)
  }

  lemma {:induction false} WalkEnds(history: map<string, Entry>, cursor: Option<string>, start: Option<string>,
                                    visited: set<string>)
    requires PromptWalk(history, cursor, start, visited).Some?
    ensures !GoesOn(history, start, CursorAfter(history, cursor, |PromptWalk(history, cursor, start, visited).value|))
    decreases history.Keys - visited
  {
    if GoesOn(history, start, cursor) {
      WalkEnds(history, history[cursor.value].parent, start, visited + {cursor.value});
    }
  }

  /** The loop has been at every visited message and went from there to another one or to `cursor`. */
  ghost predicate WentOn(history: map<string, Entry>, start: Option<string>, visited: set<string>,
                         cursor: Option<string>)
  {
    forall v | v in visited ::
      GoesOn(history, start, Some(v))
      && (history[v].parent == cursor || (history[v].parent.Some? && history[v].parent.value in visited))
  }

  lemma {:induction false} LoopStays(history: map<string, Entry>, start: Option<string>, visited: set<string>,
                                     cursor: string, n: nat)
    requires cursor in visited && forall v | v in visited ::
               GoesOn(history, start, Some(v)) && history[v].parent.Some? && history[v].parent.value in visited
    ensures GoesOn(history, start, CursorAfter(history, Some(cursor), n))
    decreases n
  {
    if n > 0 {
      LoopStays(history, start, visited, history[cursor].parent.value, n - 1);
    }
  }

  lemma {:induction false} WalkLoops(history: map<string, Entry>, cursor: Option<string>, start: Option<string>,
                                     visited: set<string>, n: nat)
    requires PromptWalk(history, cursor, start, visited).None? && WentOn(history, start, visited, cursor)
    ensures GoesOn(history, start, CursorAfter(history, cursor, n))
    decreases history.Keys - visited
  {
    if cursor.value in visited {
      LoopStays(history, start, visited, cursor.value, n);
    } else if n > 0 {
      WalkLoops(history, history[cursor.value].parent, start, visited + {cursor.value}, n - 1);
    }
  }

  /** There is no result exactly when the loop never ends. */
  lemma NoMessagesMeansForever(snapshot: Snapshot, start: Option<string>)
    ensures PromptMessages(snapshot, start).None?
       <==> forall n: nat :: GoesOn(snapshot.history, start, CursorAfter(snapshot.history, snapshot.tip, n))
  {
    if PromptMessages(snapshot, start).Some? {
      WalkEnds(snapshot.history, snapshot.tip, start, {});
    } else {
      forall n: nat
        ensures GoesOn(snapshot.history, start, CursorAfter(snapshot.history, snapshot.tip, n))
      {
        WalkLoops(snapshot.history, snapshot.tip, start, {}, n);
      }
    }
  }

  lemma {:induction false} WalkAt(history: map<string, Entry>, cursor: Option<string>, start: Option<string>,
                                  visited: set<string>, i: nat)
    requires PromptWalk(history, cursor, start, visited).Some?
    requires i < |PromptWalk(history, cursor, start, visited).value|
    ensures
      var m := PromptWalk(history, cursor, start, visited).value[i];
      && CursorAfter(history, cursor, i) == Some(m.id) && GoesOn(history, start, Some(m.id))
      && m.content == history[m.id].content
    decreases i
  {
    if i > 0 {
      WalkAt(history, history[cursor.value].parent, start, visited + {cursor.value}, i - 1);
    }
  }

  /** Oldest first: the i-th from the end is where the loop stands after i rounds, until it ends. */
  lemma MessagesFollowParents(snapshot: Snapshot, start: Option<string>, i: nat)
    requires PromptMessages(snapshot, start).Some? && i <= |PromptMessages(snapshot, start).value|
    ensures
      var messages, cursor := PromptMessages(snapshot, start).value, CursorAfter(snapshot.history, snapshot.tip, i);
      if i == |messages| then !GoesOn(snapshot.history, start, cursor)
      else var m := messages[|messages| - 1 - i];
           cursor == Some(m.id) && m.id in snapshot.history && m.content == snapshot.history[m.id].content
  {
    if i == |PromptMessages(snapshot, start).value| {
      WalkEnds(snapshot.history, snapshot.tip, start, {});
    } else {
      WalkAt(snapshot.history, snapshot.tip, start, {}, i);
    }
  }

  function SyncItem(s: State, key: Key, item: Item): (r: State) {
    match item
    case TextItem(text) => ItemText(s, key, Missing(text, SentOf(s.sent, key)))
    case CallItem(callId) => Announce(s.(shown := s.shown + {key.message}), callId)
    case ReasoningItem => s
  }

  function SyncItems(s: State, id: string, items: seq<Item>): (r: State)
    decreases |items|
  {
    if items == [] then s
    else SyncItem(SyncItems(s, id, items[..|items| - 1]), Key(id, |items| - 1), items[|items| - 1])
  }

  function SyncMessage(s: State, message: PromptMessage): (r: State) {
    match message.content
    case AssistantItems(items) => SyncItems(s, message.id, items)
    case CallResult(callId) => Report(s, callId)
    case OtherContent => s
  }

  function SyncMessages(s: State, messages: seq<PromptMessage>): (r: State)
    decreases |messages|
  {
    if messages == [] then s else SyncMessage(SyncMessages(s, messages[..|messages| - 1]), messages[|messages| - 1])
  }

  function Covering(s: State, sequence: nat): (r: State) {
    s.(covered := if s.covered < sequence then sequence else s.covered)
  }

  function Resynced(s: State, sequence: nat, messages: seq<PromptMessage>): (r: State) {
    SyncMessages(Covering(s, sequence), messages)
  }

  /** The object driving one prompt. */
  class Output {
    const promptStart: Option<string>
    var sent: Sent
    var shown: set<string>
    var announced: set<CallId>
    var open: set<CallId>
    var covered: nat
    var streaming: Option<string>
    var openText: Option<string>
    var log: seq<Update>

    ghost function Contents(): (r: State)
      reads this
    {
      State(sent, shown, announced, open, covered, streaming, openText, log)
    }

    constructor (promptStart: Option<string>)
      ensures Contents() == START && this.promptStart == promptStart
    {
      this.promptStart := promptStart;
      sent, shown, announced, open, covered, streaming, openText, log := map[], {}, {}, {}, 0, None, None, [];
    }

    method SendUpdate(update: Update)
      modifies this
      ensures Contents() == Send(old(Contents()), update)
    {
      openText := match update
        case Chunk(key, _, _) => Some(key.message)
        case Notice(_, attached) => attached
        case _ => None;
      log := log + [update];
    }

    method SendItemText(message: string, index: nat, text: Text)
      modifies this
      ensures Contents() == ItemText(old(Contents()), Key(message, index), text)
    {
      var key := Key(message, index);
      var already := if key in sent then sent[key] else 0;
      var paragraph := already == 0 && text != [] && message in shown;
      sent := sent[key := already + |text|];
      if text != [] {
        shown := shown + {message};
        SendUpdate(Chunk(key, paragraph, text));
      }
    }

    method Interrupt(message: Option<string>, cause: Cause)
      modifies this
      ensures Contents() == SendNotice(old(Contents()), message, cause)
    {
      var attached := None;
      if message.Some? && openText == message {
        shown := shown - {message.value};
        attached := message;
      }
      SendUpdate(Notice(cause, attached));
    }

    method AnnounceCall(callId: CallId)
      modifies this
      ensures Contents() == Announce(old(Contents()), callId)
    {
      if callId in announced { return; }
      announced := announced + {callId};
      open := open + {callId};
      SendUpdate(ToolCall(callId));
    }

    method ReportResult(callId: CallId)
      modifies this
      ensures Contents() == Report(old(Contents()), callId)
    {
      var wasOpen := callId in open;
      open := open - {callId};
      if wasOpen || callId !in announced {
        announced := announced + {callId};
        SendUpdate(ToolResult(callId));
      }
    }

    method HandleEvent(event: Event)
      modifies this
      ensures Contents() == OnEvent(old(Contents()), event)
    {
      match event
      case ItemStarted(message, index, item) =>
        match item {
          case TextItem(text) => SendItemText(message, index, text);
          case CallItem(_) => shown := shown + {message};
          case ReasoningItem =>
        }
      case ItemDelta(message, index, delta) => SendItemText(message, index, delta);
      case ReasoningDelta(message) => SendUpdate(Thought(message));
      case StreamStart(message) => streaming := Some(message);
      case StreamRestarted(message) =>
        sent := Forget(sent, message);
        Interrupt(Some(message), Retry(message));
      case ContextStateChanged(notifications) =>
        var message := streaming;
        for i := 0 to |notifications|
          invariant Contents() == SendNotices(old(Contents()), message, notifications[..i])
        {
          assert notifications[..i + 1][..i] == notifications[..i];
          Interrupt(message, Context(notifications[i]));
        }
        assert notifications[..|notifications|] == notifications;
      case ScriptPrepared(callId) => AnnounceCall(callId);
      case ScriptApprovalRequested(callId) => AnnounceCall(callId);
      case ScriptStarted(callId) => SendUpdate(ToolProgress(callId));
      case ScriptResultReady(callId) => ReportResult(callId);
      case OtherEvent =>
      case OtherSession =>
    }

    /** The loop from the tip to the prompt's start, then reversed. */
    method CollectPromptMessages(snapshot: Snapshot) returns (messages: seq<PromptMessage>)
      requires PromptMessages(snapshot, promptStart).Some?
      ensures PromptMessages(snapshot, promptStart) == Some(messages)
    {
      messages := [];
      var cursor := snapshot.tip;
      ghost var visited := {};
      ghost var all := PromptWalk(snapshot.history, snapshot.tip, promptStart, {});
      while cursor.Some? && cursor != promptStart && cursor.value in snapshot.history
        invariant PromptWalk(snapshot.history, cursor, promptStart, visited).Some?
        invariant all.value == messages + PromptWalk(snapshot.history, cursor, promptStart, visited).value
        decreases snapshot.history.Keys - visited
      {
        var entry := snapshot.history[cursor.value];
        messages := messages + [PromptMessage(cursor.value, entry.content)];
        visited := visited + {cursor.value};
        cursor := entry.parent;
      }
      assert messages + [] == messages;
      messages := Reverse(messages);
    }

    method Resync(snapshot: Snapshot)
      requires PromptMessages(snapshot, promptStart).Some?
      modifies this
      ensures Contents()
              == Resynced(old(Contents()), snapshot.eventSequence, PromptMessages(snapshot, promptStart).value)
    {
      covered := if covered < snapshot.eventSequence then snapshot.eventSequence else covered;
      ghost var s := Contents();
      var messages := CollectPromptMessages(snapshot);
      for i := 0 to |messages|
        invariant Contents() == SyncMessages(s, messages[..i])
      {
        assert messages[..i + 1][..i] == messages[..i];
        match messages[i].content
        case AssistantItems(items) => ResyncItems(messages[i].id, items);
        case CallResult(callId) => ReportResult(callId);
        case OtherContent =>
      }
      assert messages[..|messages|] == messages;
    }

    method ResyncItems(id: string, items: seq<Item>)
      modifies this
      ensures Contents() == SyncItems(old(Contents()), id, items)
    {
      for index := 0 to |items|
        invariant Contents() == SyncItems(old(Contents()), id, items[..index])
      {
        assert items[..index + 1][..index] == items[..index];
        match items[index]
        case TextItem(text) =>
          var already := if Key(id, index) in sent then sent[Key(id, index)] else 0;
          SendItemText(id, index, Missing(text, already));
        case CallItem(callId) =>
          shown := shown + {id};
          AnnounceCall(callId);
        case ReasoningItem =>
      }
      assert items[..|items|] == items;
    }
  }
}
