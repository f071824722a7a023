/**
 * The rest of what a client sees: thoughts, progress and notices are passed on as
 * they come, and paragraph breaks and attached notices stand where they belong.
 */
module Transcript {
  import opened Types
  import opened Utf8
  import opened PromptOutput
  import opened Delivery

  // Everything but text and tool calls ----------------------------------------

  datatype Aside = Mused(message: string) | Progressed(callId: CallId) | Noticed(cause: Cause)

  function AsideOf(update: Update): (r: seq<Aside>) {
    match update
    case Thought(message) => [Mused(message)]
    case ToolProgress(callId) => [Progressed(callId)]
    case Notice(cause, _) => [Noticed(cause)]
    case _ => []
  }

  function Asides(log: seq<Update>): (r: seq<Aside>)
    decreases |log|
  {
    if log == [] then [] else Asides(log[..|log| - 1]) + AsideOf(log[|log| - 1])
  }

  function Notices(texts: seq<string>): (r: seq<Aside>)
    decreases |texts|
  {
    if texts == [] then [] else Notices(texts[..|texts| - 1]) + [Noticed(Context(texts[|texts| - 1]))]
  }

  /** What an event has to say beside text and tool calls. */
  function EventAsides(event: Event): (r: seq<Aside>) {
    match event
    case ReasoningDelta(message) => [Mused(message)]
    case ScriptStarted(callId) => [Progressed(callId)]
    case StreamRestarted(message) => [Noticed(Retry(message))]
    case ContextStateChanged(notifications) => Notices(notifications)
    case _ => []
  }

  function AllAsides(calls: seq<Call>): (r: seq<Aside>)
    decreases |calls|
  {
    if calls == [] then []
    else (if calls[0].Handle? then EventAsides(calls[0].event) else []) + AllAsides(calls[1..])
  }

  lemma SendAsides(s: State, update: Update)
    ensures Asides(Send(s, update).log) == Asides(s.log) + AsideOf(update)
  {
    assert (s.log + [update])[..|s.log|] == s.log;
  }

  lemma SendQuiet(s: State, update: Update)
    requires AsideOf(update) == []
    ensures Asides(Send(s, update).log) == Asides(s.log)
  {
    SendAsides(s, update);
  }

  lemma ItemTextAsides(s: State, key: Key, text: Text)
    ensures Asides(ItemText(s, key, text).log) == Asides(s.log)
  {
    var paragraph := SentOf(s.sent, key) == 0 && text != [] && key.message in s.shown;
    var counted := s.(sent := s.sent[key := SentOf(s.sent, key) + |text|],
                      shown := if text == [] then s.shown else s.shown + {key.message});
    SendQuiet(counted, Chunk(key, paragraph, text));
  }

  lemma CallsAsides(s: State, callId: CallId)
    ensures Asides(Announce(s, callId).log) == Asides(s.log) && Asides(Report(s, callId).log) == Asides(s.log)
  {
    SendQuiet(s.(announced := s.announced + {callId}, open := s.open + {callId}), ToolCall(callId));
    SendQuiet(s.(open := s.open - {callId}, announced := s.announced + {callId}), ToolResult(callId));
  }

  lemma NoticeAsides(s: State, message: Option<string>, cause: Cause)
    ensures Asides(SendNotice(s, message, cause).log) == Asides(s.log) + [Noticed(cause)]
  {
    SendAsides(s, Notice(cause, None));
    if message.Some? {
      SendAsides(s.(shown := s.shown - {message.value}), Notice(cause, message));
    }
  }

  lemma {:induction false} NoticesAsides(s: State, message: Option<string>, texts: seq<string>)
    ensures Asides(SendNotices(s, message, texts).log) == Asides(s.log) + Notices(texts)
    decreases |texts|
  {
    if texts == [] {
      assert Asides(s.log) + Notices(texts) == Asides(s.log);
    } else {
      var front, last := texts[..|texts| - 1], texts[|texts| - 1];
      NoticesAsides(s, message, front);
      NoticeAsides(SendNotices(s, message, front), message, Context(last));
      Assoc(Asides(s.log), Notices(front), [Noticed(Context(last))]);
    }
  }

  lemma QuietAdds(s: State, event: Event)
    requires EventAsides(event) == [] && !event.ContextStateChanged?
    ensures Asides(OnEvent(s, event).log) == Asides(s.log)
  {
    match event
    case ItemStarted(message, index, TextItem(text)) => ItemTextAsides(s, Key(message, index), text);
    case ItemDelta(message, index, delta) => ItemTextAsides(s, Key(message, index), delta);
    case ScriptPrepared(callId) => CallsAsides(s, callId);
    case ScriptApprovalRequested(callId) => CallsAsides(s, callId);
    case ScriptResultReady(callId) => CallsAsides(s, callId);
    case _ =>
  }

  lemma EventAdds(s: State, event: Event)
    ensures Asides(OnEvent(s, event).log) == Asides(s.log) + EventAsides(event)
  {
    match event
    case ReasoningDelta(message) => SendAsides(s, Thought(message));
    case StreamRestarted(message) => NoticeAsides(s.(sent := Forget(s.sent, message)), Some(message), Retry(message));
    case ContextStateChanged(notifications) => NoticesAsides(s, s.streaming, notifications);
    case ScriptStarted(callId) => SendAsides(s, ToolProgress(callId));
    case _ =>
      QuietAdds(s, event);
      assert Asides(s.log) + [] == Asides(s.log);
  }

  lemma {:induction false} ItemsAdd(s: State, id: string, items: seq<Item>)
    ensures Asides(SyncItems(s, id, items).log) == Asides(s.log)
    decreases |items|
  {
    if items != [] {
      var n := |items| - 1;
      ItemsAdd(s, id, items[..n]);
      var mid := SyncItems(s, id, items[..n]);
      match items[n]
      case TextItem(text) => ItemTextAsides(mid, Key(id, n), Missing(text, SentOf(mid.sent, Key(id, n))));
      case CallItem(callId) => CallsAsides(mid.(shown := mid.shown + {id}), callId);
      case ReasoningItem =>
    }
  }

  lemma {:induction false} MessagesAdd(s: State, messages: seq<PromptMessage>)
    ensures Asides(SyncMessages(s, messages).log) == Asides(s.log)
    decreases |messages|
  {
    if messages != [] {
      var front, last := messages[..|messages| - 1], messages[|messages| - 1];
      MessagesAdd(s, front);
      match last.content
      case AssistantItems(items) => ItemsAdd(SyncMessages(s, front), last.id, items);
      case CallResult(callId) => CallsAsides(SyncMessages(s, front), callId);
      case OtherContent =>
    }
  }

  lemma DoAdds(s: State, start: Option<string>, call: Call)
    ensures Asides(Do(s, start, call).log) == Asides(s.log) + (if call.Handle? then EventAsides(call.event) else [])
  {
    assert Asides(s.log) + [] == Asides(s.log);
    match call
    case Handle(event) => EventAdds(s, event);
    case Sync(snapshot) =>
      if PromptMessages(snapshot, start).Some? {
        MessagesAdd(Covering(s, snapshot.eventSequence), PromptMessages(snapshot, start).value);
      }
    case Ask(callId) => CallsAsides(s, callId);
  }

  /** Thoughts, progress, retries and context notices reach the client in the order of the events, none twice. */
  lemma {:induction false} AsidesInOrder(s: State, start: Option<string>, calls: seq<Call>)
    ensures Asides(DoAll(s, start, calls).log) == Asides(s.log) + AllAsides(calls)
    decreases |calls|
  {
    if calls == [] {
      assert Asides(s.log) + AllAsides(calls) == Asides(s.log);
    } else {
      DoAdds(s, start, calls[0]);
      AsidesInOrder(Do(s, start, calls[0]), start, calls[1..]);
      Assoc(Asides(s.log), if calls[0].Handle? then EventAsides(calls[0].event) else [], AllAsides(calls[1..]));
    }
  }

  // Paragraphs and attached notices ---------------------------------------------

  /** The message whose text the client is reading. */
  function Reading(log: seq<Update>): (r: Option<string>) {
    if log == [] then None else
    match log[|log| - 1]
    case Chunk(key, _, _) => Some(key.message)
    case Notice(_, attached) => attached
    case _ => None
  }

  /** The client has text of this message that no attached notice has closed since. */
  predicate Shows(log: seq<Update>, message: string)
    decreases |log|
  {
    log != [] &&
    var last := log[|log| - 1];
    (last.Chunk? && last.key.message == message)
    || (!(last.Notice? && last.attached == Some(message)) && Shows(log[..|log| - 1], message))
  }

  /**
   * How an update stands behind what was sent before it. A chunk is never empty; it starts a paragraph only at
   * the beginning of its item, and there it does if the client shows other text of the message. A notice carries
   * the identifier of the message the client is reading, and a retry does so whenever that is its message.
   */
  predicate Fits(before: seq<Update>, update: Update) {
    match update
    case Chunk(key, paragraph, text) =>
      && text != []
      && (paragraph ==> Delivered(before, key) == [])
      && (Delivered(before, key) == [] && Shows(before, key.message) ==> paragraph)
    case Notice(cause, attached) =>
      && (attached.Some? ==> Reading(before) == attached)
      && (cause.Retry? && Reading(before) == Some(cause.message) ==> attached.Some?)
    case _ => true
  }

  ghost predicate WellPlaced(log: seq<Update>) {
    forall i | 0 <= i < |log| :: Fits(log[..i], log[i])
  }

  ghost predicate Tallied(s: State) {
    forall key :: SentOf(s.sent, key) == |Delivered(s.log, key)|
  }

  ghost predicate Laid(s: State) {
    && WellPlaced(s.log) && s.openText == Reading(s.log)
    && forall message | Shows(s.log, message) :: message in s.shown
  }

  lemma PlacedMore(log: seq<Update>, update: Update)
    requires WellPlaced(log) && Fits(log, update)
    ensures WellPlaced(log + [update])
  {
    var more := log + [update];
    forall i | 0 <= i < |more|
      ensures Fits(more[..i], more[i])
    {
      assert more[..i] == if i < |log| then log[..i] else log;
    }
  }

  lemma ShowsMore(log: seq<Update>, update: Update, message: string)
    ensures Shows(log + [update], message) <==>
            || (update.Chunk? && update.key.message == message)
            || (!(update.Notice? && update.attached == Some(message)) && Shows(log, message))
  {
    assert (log + [update])[..|log|] == log;
  }

  /** Sending what fits, with the shown messages kept up to date. */
  lemma SendLaid(s: State, update: Update)
    requires WellPlaced(s.log) && Fits(s.log, update)
    requires forall message | Shows(s.log, message) ::
               message in s.shown || (update.Notice? && update.attached == Some(message))
    requires update.Chunk? ==> update.key.message in s.shown
    ensures Laid(Send(s, update))
  {
    PlacedMore(s.log, update);
    forall message | Shows(s.log + [update], message)
      ensures message in s.shown
    {
      ShowsMore(s.log, update, message);
    }
  }

  lemma ItemTextLaid(s: State, key: Key, text: Text)
    requires Laid(s) && Tallied(s)
    ensures Laid(ItemText(s, key, text)) && Tallied(ItemText(s, key, text))
  {
    forall other
      ensures SentOf(ItemText(s, key, text).sent, other) == |Delivered(ItemText(s, key, text).log, other)|
    {
      ItemTextDelivers(s, key, text, other);
    }
    if text != [] {
      var paragraph := SentOf(s.sent, key) == 0 && key.message in s.shown;
      var counted := s.(sent := s.sent[key := SentOf(s.sent, key) + |text|], shown := s.shown + {key.message});
      assert SentOf(s.sent, key) == |Delivered(s.log, key)|;
      SendLaid(counted, Chunk(key, paragraph, text));
    }
  }

  lemma SameTallied(s: State, r: State)
    requires SameText(s, r) && Tallied(s)
    ensures Tallied(r)
  {
  }

  lemma NoticeLaid(s: State, message: Option<string>, cause: Cause)
    requires Laid(s) && (cause.Retry? ==> message == Some(cause.message))
    ensures Laid(SendNotice(s, message, cause))
  {
    if message.Some? && s.openText == message {
      SendLaid(s.(shown := s.shown - {message.value}), Notice(cause, message));
    } else {
      SendLaid(s, Notice(cause, None));
    }
  }

  lemma {:induction false} NoticesLaid(s: State, message: Option<string>, texts: seq<string>)
    requires Laid(s) && Tallied(s)
    ensures Laid(SendNotices(s, message, texts)) && Tallied(SendNotices(s, message, texts))
    decreases |texts|
  {
    if texts != [] {
      var front, last := texts[..|texts| - 1], texts[|texts| - 1];
      NoticesLaid(s, message, front);
      NoticeLaid(SendNotices(s, message, front), message, Context(last));
    }
    NoticesKeepText(s, message, texts);
    SameTallied(s, SendNotices(s, message, texts));
  }

  lemma CallsLaid(s: State, callId: CallId)
    requires Laid(s) && Tallied(s)
    ensures Laid(Announce(s, callId)) && Tallied(Announce(s, callId))
    ensures Laid(Report(s, callId)) && Tallied(Report(s, callId))
  {
    SendLaid(s.(announced := s.announced + {callId}, open := s.open + {callId}), ToolCall(callId));
    SendLaid(s.(open := s.open - {callId}, announced := s.announced + {callId}), ToolResult(callId));
    CallsKeepText(s, callId);
    SameTallied(s, Announce(s, callId));
    SameTallied(s, Report(s, callId));
  }

  lemma RestartLaid(s: State, message: string)
    requires Laid(s) && Tallied(s)
    ensures Laid(OnEvent(s, StreamRestarted(message))) && Tallied(OnEvent(s, StreamRestarted(message)))
  {
    NoticeLaid(s.(sent := Forget(s.sent, message)), Some(message), Retry(message));
    var r := OnEvent(s, StreamRestarted(message));
    forall key
      ensures SentOf(r.sent, key) == |Delivered(r.log, key)|
    {
      RestartForgets(s, message, key);
    }
  }

  lemma EventLaid(s: State, event: Event)
    requires Laid(s) && Tallied(s)
    ensures Laid(OnEvent(s, event)) && Tallied(OnEvent(s, event))
  {
    match event
    case ItemStarted(message, index, TextItem(text)) => ItemTextLaid(s, Key(message, index), text);
    case ItemDelta(message, index, delta) => ItemTextLaid(s, Key(message, index), delta);
    case ReasoningDelta(message) =>
      SendLaid(s, Thought(message));
      SendKeepsText(s, Thought(message));
    case StreamRestarted(message) => RestartLaid(s, message);
    case ContextStateChanged(notifications) => NoticesLaid(s, s.streaming, notifications);
    case ScriptPrepared(callId) => CallsLaid(s, callId);
    case ScriptApprovalRequested(callId) => CallsLaid(s, callId);
    case ScriptStarted(callId) =>
      SendLaid(s, ToolProgress(callId));
      SendKeepsText(s, ToolProgress(callId));
    case ScriptResultReady(callId) => CallsLaid(s, callId);
    case _ =>
  }

  lemma {:induction false} ItemsLaid(s: State, id: string, items: seq<Item>)
    requires Laid(s) && Tallied(s)
    ensures Laid(SyncItems(s, id, items)) && Tallied(SyncItems(s, id, items))
    decreases |items|
  {
    if items != [] {
      var n := |items| - 1;
      ItemsLaid(s, id, items[..n]);
      var mid := SyncItems(s, id, items[..n]);
      match items[n]
      case TextItem(text) => ItemTextLaid(mid, Key(id, n), Missing(text, SentOf(mid.sent, Key(id, n))));
      case CallItem(callId) => CallsLaid(mid.(shown := mid.shown + {id}), callId);
      case ReasoningItem =>
    }
  }

  lemma {:induction false} MessagesLaid(s: State, messages: seq<PromptMessage>)
    requires Laid(s) && Tallied(s)
    ensures Laid(SyncMessages(s, messages)) && Tallied(SyncMessages(s, messages))
    decreases |messages|
  {
    if messages != [] {
      var front, last := messages[..|messages| - 1], messages[|messages| - 1];
      MessagesLaid(s, front);
      match last.content
      case AssistantItems(items) => ItemsLaid(SyncMessages(s, front), last.id, items);
      case CallResult(callId) => CallsLaid(SyncMessages(s, front), callId);
      case OtherContent =>
    }
  }

  lemma {:induction false} LaidRun(s: State, start: Option<string>, calls: seq<Call>)
    requires Laid(s) && Tallied(s)
    ensures Laid(DoAll(s, start, calls)) && Tallied(DoAll(s, start, calls))
    decreases |calls|
  {
    if calls != [] {
      match calls[0] {
        case Handle(event) => EventLaid(s, event);
        case Sync(snapshot) =>
          if PromptMessages(snapshot, start).Some? {
            MessagesLaid(Covering(s, snapshot.eventSequence), PromptMessages(snapshot, start).value);
          }
        case Ask(callId) => CallsLaid(s, callId);
      }
      LaidRun(Do(s, start, calls[0]), start, calls[1..]);
    }
  }

  /** In every run each update fits behind those before it. */
  lemma UpdatesWellPlaced(start: Option<string>, calls: seq<Call>)
    ensures WellPlaced(DoAll(START, start, calls).log)
  {
    LaidRun(START, start, calls);
  }

  // What the output remembers -----------------------------------------------------

  function ContextNotices(texts: seq<string>, attached: Option<string>): (r: seq<Update>)
    decreases |texts|
  {
    if texts == [] then []
    else ContextNotices(texts[..|texts| - 1], attached) + [Notice(Context(texts[|texts| - 1]), attached)]
  }

  /** Context notices are attached to the streaming message, all of them, exactly when the client is reading it. */
  lemma {:induction false} NoticesExact(s: State, message: Option<string>, texts: seq<string>)
    ensures
      var r, attached := SendNotices(s, message, texts), if s.openText == message then message else None;
      && r.log == s.log + ContextNotices(texts, attached)
      && r.shown == (if texts != [] && attached.Some? then s.shown - {attached.value} else s.shown)
      && r.openText == (if texts == [] then s.openText else attached)
    decreases |texts|
  {
    if texts == [] {
      assert s.log + [] == s.log;
    } else {
      var front, last := texts[..|texts| - 1], texts[|texts| - 1];
      var attached := if s.openText == message then message else None;
      NoticesExact(s, message, front);
      Assoc(s.log, ContextNotices(front, attached), [Notice(Context(last), attached)]);
    }
  }

  /** The message whose stream started last. */
  function Started(calls: seq<Call>): (r: Option<string>)
    decreases |calls|
  {
    if calls == [] then None else
    var last := calls[|calls| - 1];
    if last.Handle? && last.event.StreamStart? then Some(last.event.message) else Started(calls[..|calls| - 1])
  }

  /** The highest sequence of a snapshot that was taken over. */
  function Highest(start: Option<string>, calls: seq<Call>): (r: nat)
    decreases |calls|
  {
    if calls == [] then 0 else
    var last, before := calls[|calls| - 1], Highest(start, calls[..|calls| - 1]);
    if last.Sync? && PromptMessages(last.snapshot, start).Some? && before < last.snapshot.eventSequence
    then last.snapshot.eventSequence else before
  }

  lemma {:induction false} DoAllLast(s: State, start: Option<string>, calls: seq<Call>, last: Call)
    ensures DoAll(s, start, calls + [last]) == Do(DoAll(s, start, calls), start, last)
    decreases |calls|
  {
    if calls == [] {
      assert [last][1..] == [] && calls + [last] == [last];
    } else {
      assert (calls + [last])[1..] == calls[1..] + [last];
      DoAllLast(Do(s, start, calls[0]), start, calls[1..], last);
    }
  }

  lemma {:induction false} ItemsKeepStreaming(s: State, id: string, items: seq<Item>)
    ensures SyncItems(s, id, items).streaming == s.streaming
    decreases |items|
  {
    if items != [] {
      ItemsKeepStreaming(s, id, items[..|items| - 1]);
    }
  }

  lemma {:induction false} MessagesKeepStreaming(s: State, messages: seq<PromptMessage>)
    ensures SyncMessages(s, messages).streaming == s.streaming
    decreases |messages|
  {
    if messages != [] {
      var front, last := messages[..|messages| - 1], messages[|messages| - 1];
      MessagesKeepStreaming(s, front);
      if last.content.AssistantItems? {
        ItemsKeepStreaming(SyncMessages(s, front), last.id, last.content.items);
      }
    }
  }

  lemma {:induction false} NoticesKeepStreaming(s: State, message: Option<string>, texts: seq<string>)
    ensures SendNotices(s, message, texts).streaming == s.streaming
    decreases |texts|
  {
    if texts != [] {
      NoticesKeepStreaming(s, message, texts[..|texts| - 1]);
    }
  }

  lemma EventStreaming(s: State, event: Event)
    ensures OnEvent(s, event).streaming == if event.StreamStart? then Some(event.message) else s.streaming
  {
    if event.ContextStateChanged? {
      NoticesKeepStreaming(s, s.streaming, event.notifications);
    }
  }

  lemma DoRemembers(s: State, start: Option<string>, call: Call)
    ensures
      var r := Do(s, start, call);
      && r.streaming == (if call.Handle? && call.event.StreamStart? then Some(call.event.message) else s.streaming)
      && r.covered == (if call.Sync? && PromptMessages(call.snapshot, start).Some?
                          && s.covered < call.snapshot.eventSequence
                       then call.snapshot.eventSequence else s.covered)
  {
    match call
    case Handle(event) =>
      EventStreaming(s, event);
      EventKeepsCovered(s, event);
    case Sync(snapshot) =>
      if PromptMessages(snapshot, start).Some? {
        MessagesKeepStreaming(Covering(s, snapshot.eventSequence), PromptMessages(snapshot, start).value);
        CoveredKept(Covering(s, snapshot.eventSequence), PromptMessages(snapshot, start).value);
      }
    case Ask(_) =>
  }

  /** The output knows the stream that started last, and skips what the newest snapshot covered. */
  lemma {:induction false} OutputRemembers(start: Option<string>, calls: seq<Call>)
    ensures DoAll(START, start, calls).streaming == Started(calls)
    ensures DoAll(START, start, calls).covered == Highest(start, calls)
    decreases |calls|
  {
    if calls != [] {
      var front, last := calls[..|calls| - 1], calls[|calls| - 1];
      assert calls == front + [last];
      OutputRemembers(start, front);
      DoAllLast(START, start, front, last);
      DoRemembers(DoAll(START, start, front), start, last);
    }
  }

  /** Which messages count as shown: those with text or a call, until a notice is attached. */
  lemma EventShows(s: State, event: Event, message: string)
    requires Laid(s)
    ensures message in OnEvent(s, event).shown <==>
            match event
            case ItemStarted(m, _, TextItem(text)) => message in s.shown || (m == message && text != [])
            case ItemStarted(m, _, CallItem(_)) => message in s.shown || m == message
            case ItemDelta(m, _, delta) => message in s.shown || (m == message && delta != [])
            case StreamRestarted(m) => message in s.shown && !(m == message && Reading(s.log) == Some(message))
            case ContextStateChanged(texts) =>
              message in s.shown
              && !(texts != [] && s.streaming == Some(message) && Reading(s.log) == Some(message))
            case _ => message in s.shown
  {
    if event.ContextStateChanged? {
      NoticesExact(s, s.streaming, event.notifications);
    }
  }

  /** A snapshot's items count in the same way. */
  lemma ItemShows(s: State, key: Key, item: Item, message: string)
    ensures message in SyncItem(s, key, item).shown <==>
            || message in s.shown
            || (key.message == message &&
                match item
                case TextItem(text) => Missing(text, SentOf(s.sent, key)) != []
                case CallItem(_) => true
                case ReasoningItem => false)
  {
  }
}
