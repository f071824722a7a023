/**
 * Incremental changes to a streaming assistant message: how one applies, how
 * neighbours merge, and the numbered log that stores them.
 */
module StreamDeltas {
  import opened Types

  datatype StreamDelta =
    | AppendText(index: nat, phase: Phase, text: string)
    | AddItem(item: AssistantItem)
    | SetUsage(usage: string)
    | Reset

  function Apply(delta: StreamDelta, message: Message): (r: Result<Message, Error>)
    ensures r.Ok? ==> r.value.id == message.id && r.value.parent == message.parent && r.value.status == message.status
  {
    if delta.SetUsage? then
      Ok(if message.generation.None? then message
         else message.(generation := Some(message.generation.value.(usage := Some(delta.usage)))))
    else if !message.content.Assistant? then Err(BadDelta)
    else
      var items := message.content.items;
      match delta
      case Reset => Ok(message.(content := Assistant([])))
      case AddItem(item) => Ok(message.(content := Assistant(items + [item])))
      case AppendText(index, phase, text) =>
        if index == |items| then Ok(message.(content := Assistant(items + [Text(phase, text)])))
        else if index < |items| && items[index].Text? && items[index].phase == phase then
          Ok(message.(content := Assistant(items[index := Text(phase, items[index].text + text)])))
        else Err(BadDelta)
  }

  /** Applies each delta once, in order, stopping at the first that does not fit. */
  function ApplyAll(message: Message, deltas: seq<StreamDelta>): (r: Result<Message, Error>)
    ensures r.Ok? ==> r.value.id == message.id && r.value.parent == message.parent && r.value.status == message.status
    decreases |deltas|
  {
    if deltas == [] then Ok(message) else
    var first :- Apply(deltas[0], message);
    ApplyAll(first, deltas[1..])
  }

  lemma {:induction false} ApplyAllConcat(message: Message, a: seq<StreamDelta>, b: seq<StreamDelta>)
    ensures ApplyAll(message, a + b) ==
            match ApplyAll(message, a) case Ok(m) => ApplyAll(m, b) case Err(e) => Err(e)
    decreases |a|
  {
    if a == [] {
      assert a + b == b;
    } else {
      assert (a + b)[1..] == a[1..] + b;
      if Apply(a[0], message).Ok? {
        ApplyAllConcat(Apply(a[0], message).value, a[1..], b);
      }
    }
  }

  /** The items after a delta that fits: only `Reset` takes any away, and only `AppendText` touches one. */
  ghost predicate Edited(delta: StreamDelta, items: seq<AssistantItem>, items': seq<AssistantItem>) {
    match delta
    case SetUsage(_) => items' == items
    case Reset => |items'| == 0
    case AddItem(item) => |items'| == |items| + 1 && items'[|items|] == item && items <= items'
    case AppendText(index, phase, text) =>
      && index <= |items| && |items'| == (if index == |items| then index + 1 else |items|)
      && items'[index] == Text(phase, if index < |items| && items[index].Text? then items[index].text + text else text)
      && forall i | 0 <= i < |items| && i != index :: items'[i] == items[i]
  }

  predicate TextOf(item: AssistantItem, phase: Phase) {
    item.Text? && item.phase == phase
  }

  /** When a delta fits, and all it changes. */
  lemma DeltaExact(delta: StreamDelta, message: Message)
    ensures
      var r := Apply(delta, message);
      && (r.Err? <==>
            && !delta.SetUsage?
            && (message.content.Assistant? && delta.AppendText? && delta.index != |message.content.items| ==>
                  delta.index > |message.content.items| || !TextOf(message.content.items[delta.index], delta.phase))
            && (message.content.Assistant? ==> delta.AppendText? && delta.index != |message.content.items|))
      && (r.Err? ==> r.error == BadDelta)
      && (r.Ok? ==>
            && r.value.id == message.id && r.value.parent == message.parent && r.value.status == message.status
            && r.value.profile == message.profile
            && (r.value.generation.Some? <==> message.generation.Some?)
            && (message.generation.Some? ==>
                  && r.value.generation.value.model == message.generation.value.model
                  && r.value.generation.value.usage
                     == if delta.SetUsage? then Some(delta.usage) else message.generation.value.usage)
            && (!message.content.Assistant? ==> r.value.content == message.content)
            && (message.content.Assistant? ==>
                  && r.value.content.Assistant?
                  && Edited(delta, message.content.items, r.value.content.items)))
  {
  }

  /** The deltas that write these items. */
  function Writing(items: seq<AssistantItem>): (r: seq<StreamDelta>)
    decreases |items|
  {
    if items == [] then [] else
    var n := |items| - 1;
    Writing(items[..n]) +
    [if items[n].Text? then AppendText(n, items[n].phase, items[n].text) else AddItem(items[n])]
  }

  lemma {:induction false} Written(message: Message, items: seq<AssistantItem>)
    requires message.content == Assistant([])
    ensures ApplyAll(message, Writing(items)) == Ok(message.(content := Assistant(items)))
    decreases |items|
  {
    if items != [] {
      var n := |items| - 1;
      var front, last := Writing(items[..n]), Writing(items)[|Writing(items)| - 1];
      Written(message, items[..n]);
      ApplyAllConcat(message, front, [last]);
      ApplyOne(message.(content := Assistant(items[..n])), last);
      assert items[..n] + [items[n]] == items;
    }
  }

  /** After a reset the message says exactly what is written from then on, whatever it said before. */
  lemma ResetStartsOver(message: Message, before: seq<StreamDelta>, items: seq<AssistantItem>)
    requires ApplyAll(message, before).Ok? && message.content.Assistant?
    ensures ApplyAll(message, before + [Reset] + Writing(items))
         == Ok(ApplyAll(message, before).value.(content := Assistant(items)))
  {
    var mid := ApplyAll(message, before).value;
    StaysAssistant(message, before);
    ApplyAllConcat(message, before + [Reset], Writing(items));
    ApplyAllConcat(message, before, [Reset]);
    ApplyOne(mid, Reset);
    Written(mid.(content := Assistant([])), items);
  }

  lemma {:induction false} StaysAssistant(message: Message, deltas: seq<StreamDelta>)
    requires message.content.Assistant? && ApplyAll(message, deltas).Ok?
    ensures ApplyAll(message, deltas).value.content.Assistant?
    decreases |deltas|
  {
    if deltas != [] {
      StaysAssistant(Apply(deltas[0], message).value, deltas[1..]);
    }
  }

  /** Merges `next` into `last` when both append to the same text item; otherwise hands `next` back. */
  function Coalesce(last: StreamDelta, next: StreamDelta): (r: (StreamDelta, Option<StreamDelta>)) {
    if last.AppendText? && next.AppendText? && last.index == next.index && last.phase == next.phase
    then (last.(text := last.text + next.text), None)
    else (last, Some(next))
  }

  function Pushed(deltas: seq<StreamDelta>, next: StreamDelta): (r: seq<StreamDelta>)
    requires deltas != []
    ensures |r| >= |deltas| && deltas[..|deltas| - 1] == r[..|deltas| - 1]
  {
    var (last, unmerged) := Coalesce(deltas[|deltas| - 1], next);
    deltas[..|deltas| - 1] + [last] + (if unmerged.Some? then [unmerged.value] else [])
  }

  lemma ApplyOne(message: Message, delta: StreamDelta)
    ensures ApplyAll(message, [delta]) == Apply(delta, message)
  {
    assert [delta][1..] == [];
  }

  /** Neighbours that append to one text are merged, and that means the same message and the same refusal. */
  lemma CoalesceApplies(message: Message, last: StreamDelta, next: StreamDelta)
    ensures ApplyAll(message, Pushed([last], next)) == ApplyAll(message, [last, next])
    ensures |Pushed([last], next)|
         == if last.AppendText? && next.AppendText? && last.index == next.index && last.phase == next.phase
            then 1 else 2
  {
    assert [last, next][1..] == [next];
    if Coalesce(last, next).1.None? {
      var merged := last.(text := last.text + next.text);
      assert Pushed([last], next) == [merged];
      ApplyOne(message, merged);
      if Apply(last, message).Ok? {
        var mid := Apply(last, message).value;
        ApplyOne(mid, next);
        var items, k := message.content.items, last.index;
        if k == |items| {
          assert mid.content.items[k := Text(last.phase, last.text + next.text)]
              == items + [Text(last.phase, last.text + next.text)];
        } else {
          assert items[k].text + (last.text + next.text) == (items[k].text + last.text) + next.text;
          assert mid.content.items[k := Text(last.phase, items[k].text + last.text + next.text)]
              == items[k := Text(last.phase, items[k].text + (last.text + next.text))];
        }
      }
    } else {
      assert Pushed([last], next) == [last, next];
    }
  }

  lemma PushedApplies(message: Message, deltas: seq<StreamDelta>, next: StreamDelta)
    requires deltas != []
    ensures ApplyAll(message, Pushed(deltas, next)) == ApplyAll(message, deltas + [next])
  {
    var front, last := deltas[..|deltas| - 1], deltas[|deltas| - 1];
    assert Pushed(deltas, next) == front + Pushed([last], next);
    assert deltas + [next] == front + [last, next];
    ApplyAllConcat(message, front, Pushed([last], next));
    ApplyAllConcat(message, front, [last, next]);
    if ApplyAll(message, front).Ok? {
      CoalesceApplies(ApplyAll(message, front).value, last, next);
    }
  }

  /** The stored rows of one message by sequence number; every number is below `end`. */
  datatype Log = Log(rows: map<nat, StreamDelta>, end: nat)

  const EMPTY: Log := Log(map[], 0)

  predicate Bounded(log: Log) {
    forall k | k in log.rows :: k < log.end
  }

  /** `INSERT OR IGNORE` keyed by sequence. */
  function Insert(log: Log, sequence: nat, delta: StreamDelta): (r: Log)
    ensures Bounded(log) ==> Bounded(r)
  {
    if sequence in log.rows then log
    else Log(log.rows[sequence := delta], if sequence < log.end then log.end else sequence + 1)
  }

  function InsertBatch(log: Log, first: nat, deltas: seq<StreamDelta>): (r: Log)
    ensures Bounded(log) ==> Bounded(r)
    decreases |deltas|
  {
    if deltas == [] then log else InsertBatch(Insert(log, first, deltas[0]), first + 1, deltas[1..])
  }

  /** The rows numbered below `end` in order. */
  function Listing(rows: map<nat, StreamDelta>, end: nat): (r: seq<StreamDelta>) {
    if end == 0 then []
    else Listing(rows, end - 1) + (if end - 1 in rows then [rows[end - 1]] else [])
  }

  /** Reading a message: only a streaming one is brought up to date from its log. */
  function Read(message: Message, log: Log): (r: Result<Message, Error>)
    ensures r.Ok? ==> r.value.id == message.id && r.value.parent == message.parent && r.value.status == message.status
  {
    if message.status.Streaming? then ApplyAll(message, Listing(log.rows, log.end)) else Ok(message)
  }

  /** Each row holds the delta the producer gave that number. */
  predicate Faithful(log: Log, stream: seq<StreamDelta>) {
    forall k | k in log.rows :: k < |stream| && log.rows[k] == stream[k]
  }

  /** A log that holds the numbers below n is the first n deltas in order. */
  lemma {:induction false} FullLogIsPrefix(rows: map<nat, StreamDelta>, end: nat, stream: seq<StreamDelta>, n: nat)
    requires forall k: nat :: k in rows <==> k < n
    requires n <= |stream| && forall k | 0 <= k < n :: rows[k] == stream[k]
    ensures Listing(rows, end) == stream[..if end < n then end else n]
  {
    if end > 0 {
      FullLogIsPrefix(rows, end - 1, stream, n);
    }
  }

  /** What a batch adds: its deltas under their numbers, except where a row is there already. */
  lemma {:induction false} BatchRows(log: Log, first: nat, deltas: seq<StreamDelta>, k: nat)
    ensures
      var rows := InsertBatch(log, first, deltas).rows;
      && (k in rows <==> k in log.rows || first <= k < first + |deltas|)
      && (k in log.rows ==> rows[k] == log.rows[k])
      && (k !in log.rows && k in rows ==> rows[k] == deltas[k - first])
    decreases |deltas|
  {
    if deltas != [] {
      BatchRows(Insert(log, first, deltas[0]), first + 1, deltas[1..], k);
    }
  }

  lemma BatchStaysFaithful(log: Log, first: nat, deltas: seq<StreamDelta>, stream: seq<StreamDelta>)
    requires Faithful(log, stream)
    requires first + |deltas| <= |stream| && deltas == stream[first..first + |deltas|]
    ensures Faithful(InsertBatch(log, first, deltas), stream)
    ensures forall k: nat ::
              k in InsertBatch(log, first, deltas).rows <==> k in log.rows || first <= k < first + |deltas|
  {
    forall k: nat
      ensures k in InsertBatch(log, first, deltas).rows <==> k in log.rows || first <= k < first + |deltas|
      ensures k in InsertBatch(log, first, deltas).rows ==>
                k < |stream| && InsertBatch(log, first, deltas).rows[k] == stream[k]
    {
      BatchRows(log, first, deltas, k);
    }
  }

  /** Batches of one producer's stream: any order, any overlap, any repetition. */
  datatype Batch = Batch(first: nat, count: nat)

  function Receive(log: Log, stream: seq<StreamDelta>, batches: seq<Batch>): (r: Log)
    requires forall b | b in batches :: b.first + b.count <= |stream|
    decreases |batches|
  {
    if batches == [] then log
    else Receive(InsertBatch(log, batches[0].first, stream[batches[0].first..batches[0].first + batches[0].count]),
                 stream, batches[1..])
  }

  predicate Covered(batches: seq<Batch>, k: nat) {
    exists b | b in batches :: b.first <= k < b.first + b.count
  }

  lemma {:induction false} ReceivedLog(log: Log, stream: seq<StreamDelta>, batches: seq<Batch>)
    requires Faithful(log, stream) && forall b | b in batches :: b.first + b.count <= |stream|
    ensures Faithful(Receive(log, stream, batches), stream)
    ensures forall k: nat :: k in Receive(log, stream, batches).rows <==> k in log.rows || Covered(batches, k)
    decreases |batches|
  {
    if batches != [] {
      var b := batches[0];
      BatchStaysFaithful(log, b.first, stream[b.first..b.first + b.count], stream);
      ReceivedLog(InsertBatch(log, b.first, stream[b.first..b.first + b.count]), stream, batches[1..]);
      assert forall c :: c in batches <==> c == b || c in batches[1..];
      assert forall k: nat :: Covered(batches, k) <==> b.first <= k < b.first + b.count || Covered(batches[1..], k);
    }
  }

  lemma {:induction false} ReceivedBound(log: Log, stream: seq<StreamDelta>, batches: seq<Batch>)
    requires Bounded(log) && forall b | b in batches :: b.first + b.count <= |stream|
    ensures Bounded(Receive(log, stream, batches))
    decreases |batches|
  {
    if batches != [] {
      var b := batches[0];
      ReceivedBound(InsertBatch(log, b.first, stream[b.first..b.first + b.count]), stream, batches[1..]);
    }
  }

  /**
   * Whatever the batching, order and resending, once the first n numbers have arrived the
   * streaming message reads as its n deltas applied once each in order, errors included.
   */
  lemma BatchesReadAsStream(message: Message, stream: seq<StreamDelta>, batches: seq<Batch>, n: nat)
    requires message.status.Streaming? && n <= |stream|
    requires forall b | b in batches :: b.first + b.count <= |stream|
    requires forall k: nat :: Covered(batches, k) <==> k < n
    ensures Read(message, Receive(EMPTY, stream, batches)) == ApplyAll(message, stream[..n])
  {
    ReceivedLog(EMPTY, stream, batches);
    ReceivedBound(EMPTY, stream, batches);
    var log := Receive(EMPTY, stream, batches);
    assert forall k: nat :: k in log.rows <==> k < n;
    FullLogIsPrefix(log.rows, log.end, stream, n);
    if n > 0 {
      assert n - 1 in log.rows;
    }
  }

  /** A stored message and its log: saving replaces the record and clears the log. */

  datatype Stored = Stored(message: Message, log: Log)

  datatype Change = Save(message: Message) | Append(first: nat, deltas: seq<StreamDelta>)

  function Changed(stored: Stored, changes: seq<Change>): (r: Stored)
    decreases |changes|
  {
    if changes == [] then stored
    else match changes[0]
      case Save(message) => Changed(Stored(message, EMPTY), changes[1..])
      case Append(first, deltas) =>
        Changed(stored.(log := InsertBatch(stored.log, first, deltas)), changes[1..])
  }

  lemma {:induction false} AppendsKeepRecord(stored: Stored, appends: seq<Change>)
    requires forall c | c in appends :: c.Append?
    ensures Changed(stored, appends).message == stored.message
    decreases |appends|
  {
    if appends != [] {
      AppendsKeepRecord(stored.(log := InsertBatch(stored.log, appends[0].first, appends[0].deltas)), appends[1..]);
    }
  }

  lemma {:induction false} ChangedConcat(stored: Stored, a: seq<Change>, b: seq<Change>)
    ensures Changed(stored, a + b) == Changed(Changed(stored, a), b)
    decreases |a|
  {
    if a == [] {
      assert a + b == b;
    } else {
      assert (a + b)[1..] == a[1..] + b;
      var next := match a[0]
        case Save(message) => Stored(message, EMPTY)
        case Append(first, deltas) => stored.(log := InsertBatch(stored.log, first, deltas));
      ChangedConcat(next, a[1..], b);
    }
  }

  /** Deltas that arrive after a completed save are never visible, whatever came before. */
  lemma LateDeltasInvisible(stored: Stored, before: seq<Change>, message: Message, late: seq<Change>)
    requires !message.status.Streaming? && forall c | c in late :: c.Append?
    ensures var end := Changed(stored, before + [Save(message)] + late); Read(end.message, end.log) == Ok(message)
  {
    ChangedConcat(stored, before + [Save(message)], late);
    ChangedConcat(stored, before, [Save(message)]);
    AppendsKeepRecord(Stored(message, EMPTY), late);
  }

  lemma {:induction false} ListingGrows(rows: map<nat, StreamDelta>, k: nat, end: nat)
    requires k <= end
    ensures Listing(rows, k) <= Listing(rows, end)
    decreases end
  {
    if k < end {
      ListingGrows(rows, k, end - 1);
    }
  }

  /** The row loop of reading. */
  method ReadMessage(message: Message, log: Log) returns (r: Result<Message, Error>)
    ensures r == Read(message, log)
  {
    if !message.status.Streaming? {
      return Ok(message);
    }
    var current := message;
    for k := 0 to log.end
      invariant ApplyAll(message, Listing(log.rows, k)) == Ok(current)
    {
      if k in log.rows {
        var row := log.rows[k];
        ApplyAllConcat(message, Listing(log.rows, k), [row]);
        ApplyOne(current, row);
        var applied := Apply(row, current);
        if applied.Err? {
          ListingGrows(log.rows, k + 1, log.end);
          var all, seen := Listing(log.rows, log.end), Listing(log.rows, k + 1);
          ApplyAllConcat(message, seen, all[|seen|..]);
          assert all == seen + all[|seen|..];
          return Err(applied.error);
        }
        current := applied.value;
      } else {
        assert Listing(log.rows, k + 1) == Listing(log.rows, k);
      }
    }
    r := Ok(current);
  }
}
