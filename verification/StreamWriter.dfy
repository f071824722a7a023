/**
 * The writer of a streaming message. Deltas are applied in memory, merged into a
 * pending list, sealed while a batch is being stored, and resent under the same
 * numbers when the outcome of a batch is unknown.
 */
module StreamWriter {
  import opened Types
  import opened StreamDeltas

  datatype Writer = Writer(message: Message, pending: seq<StreamDelta>, first: nat, sealedCount: nat)

  /** Adds a delta to the pending list, merging it into the last one only if that one is unsealed. */
  function Queued(w: Writer, delta: StreamDelta): (r: Writer) {
    if w.pending != [] && |w.pending| > w.sealedCount then w.(pending := Pushed(w.pending, delta))
    else w.(pending := w.pending + [delta])
  }

  function Recorded(w: Writer, delta: StreamDelta): (r: Result<Writer, Error>) {
    var message :- Apply(delta, w.message);
    Ok(Queued(w.(message := message), delta))
  }

  function Drained(w: Writer, count: nat): (r: Writer)
    requires count <= |w.pending|
  {
    w.(pending := w.pending[count..], first := w.first + count, sealedCount := 0)
  }

  /** Both append to the same text. */
  predicate Continues(last: StreamDelta, next: StreamDelta) {
    last.AppendText? && next.AppendText? && last.index == next.index && last.phase == next.phase
  }

  /** The same state held in place. */
  class StreamingMessageState {
    var message: Message
    var pending: seq<StreamDelta>
    var first: nat
    var sealedCount: nat

    function Value(): Writer
      reads this
    {
      Writer(message, pending, first, sealedCount)
    }

    constructor (start: Message)
      ensures Value() == Writer(start, [], 0, 0)
    {
      message, pending, first, sealedCount := start, [], 0, 0;
    }

    method Record(delta: StreamDelta) returns (r: Result<(), Error>)
      modifies this
      ensures match Recorded(old(Value()), delta)
              case Ok(w) => r == Ok(()) && Value() == w
              case Err(e) => r == Err(e) && Value() == old(Value())
      ensures r.Ok? <==> Apply(delta, old(message)).Ok?
      ensures r.Ok? ==>
                && message == Apply(delta, old(message)).value
                && first == old(first) && sealedCount == old(sealedCount)
                && if |old(pending)| > old(sealedCount) && Continues(old(pending)[|old(pending)| - 1], delta)
                   then |pending| == |old(pending)| && pending[..|pending| - 1] == old(pending)[..|pending| - 1]
                        && pending[|pending| - 1]
                           == AppendText(delta.index, delta.phase, old(pending)[|pending| - 1].text + delta.text)
                   else pending == old(pending) + [delta]
    {
      var applied := Apply(delta, message);
      if applied.Err? {
        return Err(applied.error);
      }
      message := applied.value;
      QueueDelta(delta);
      r := Ok(());
    }

    method QueueDelta(delta: StreamDelta)
      modifies this
      ensures Value() == Queued(old(Value()), delta)
    {
      var unsealed := |pending| > sealedCount;
      var unmerged := Some(delta);
      if pending != [] && unsealed {
        var (last, left) := Coalesce(pending[|pending| - 1], delta);
        pending := pending[..|pending| - 1] + [last];
        unmerged := left;
      }
      if unmerged.Some? {
        pending := pending + [unmerged.value];
      }
    }

    method Seal() returns (batch: (nat, seq<StreamDelta>))
      modifies this
      ensures Value() == old(Value()).(sealedCount := |old(pending)|)
      ensures batch == (old(first), old(pending))
    {
      sealedCount := |pending|;
      batch := (first, pending);
    }

    method Drain(count: nat)
      requires count <= |pending|
      modifies this
      ensures Value() == Drained(old(Value()), count)
    {
      pending := pending[count..];
      first := first + count;
      sealedCount := 0;
    }
  }

  /** The writer, its store, and the batch on its way; `raw` and `acked` are history. */
  datatype Inflight = Inflight(first: nat, batch: seq<StreamDelta>, stored: bool)

  datatype Publishing = Publishing(
    base: Message,
    log: Log,
    writer: Writer,
    inflight: Option<Inflight>,
    raw: seq<StreamDelta>,
    acked: seq<StreamDelta>)

  datatype Step =
    | Record(delta: StreamDelta)
    | BeginPublish
    | StoreBatch
    | Acknowledge
    | GiveUp

  predicate Enabled(p: Publishing, step: Step) {
    match step
    case Record(_) => true
    case BeginPublish => p.inflight.None? && p.writer.pending != []
    case StoreBatch => p.inflight.Some? && !p.inflight.value.stored
    case Acknowledge => p.inflight.Some? && p.inflight.value.stored && |p.inflight.value.batch| <= |p.writer.pending|
    case GiveUp => p.inflight.Some?
  }

  function Next(p: Publishing, step: Step): (r: Publishing)
    requires Enabled(p, step)
  {
    match step
    case Record(delta) =>
      (match Recorded(p.writer, delta)
       case Ok(w) => p.(writer := w, raw := p.raw + [delta])
       case Err(_) => p)
    case BeginPublish =>
      p.(writer := p.writer.(sealedCount := |p.writer.pending|),
         inflight := Some(Inflight(p.writer.first, p.writer.pending, false)))
    case StoreBatch =>
      p.(log := InsertBatch(p.log, p.inflight.value.first, p.inflight.value.batch),
         inflight := Some(p.inflight.value.(stored := true)))
    case Acknowledge =>
      var batch := p.inflight.value.batch;
      p.(writer := Drained(p.writer, |batch|), inflight := None, acked := p.acked + batch)
    case GiveUp => p.(inflight := None)
  }

  /** Every delta numbered so far, stored or still pending. */
  function Stream(p: Publishing): seq<StreamDelta> {
    p.acked + p.writer.pending
  }

  /** The log holds a prefix of the numbered deltas that ends inside the sealed part. */
  ghost predicate LogIsPrefix(p: Publishing) {
    && Bounded(p.log)
    && |p.acked| == p.writer.first && p.writer.sealedCount <= |p.writer.pending|
    && p.writer.first <= p.log.end <= p.writer.first + p.writer.sealedCount
    && (forall k: nat :: k in p.log.rows <==> k < p.log.end)
    && forall k: nat | k < p.log.end :: p.log.rows[k] == Stream(p)[k]
  }

  ghost predicate Inv(p: Publishing) {
    && p.base.status.Streaming?
    && LogIsPrefix(p)
    && (p.inflight.Some? ==>
          && p.inflight.value.first == p.writer.first
          && p.inflight.value.batch == p.writer.pending[..p.writer.sealedCount]
          && (p.inflight.value.stored ==> p.log.end == p.writer.first + p.writer.sealedCount))
    && ApplyAll(p.base, Stream(p)) == Ok(p.writer.message)
    && ApplyAll(p.base, p.raw) == Ok(p.writer.message)
  }

  predicate Initial(p: Publishing) {
    && p.base.status.Streaming? && p.log == EMPTY && p.inflight.None? && p.raw == [] && p.acked == []
    && p.writer == Writer(p.base, [], 0, 0)
  }

  /** A new delta extends the stream, or merges into its last delta while that is not sealed. */
  lemma RecordedStream(p: Publishing, delta: StreamDelta)
    requires Inv(p) && Recorded(p.writer, delta).Ok?
    ensures
      var p' := Next(p, Record(delta));
      if |p.writer.pending| > p.writer.sealedCount then Stream(p') == Pushed(Stream(p), delta)
      else Stream(p') == Stream(p) + [delta]
  {
  }

  lemma RecordKeepsValue(p: Publishing, delta: StreamDelta)
    requires Inv(p) && Recorded(p.writer, delta).Ok?
    ensures
      var p' := Next(p, Record(delta));
      ApplyAll(p.base, Stream(p')) == Ok(p'.writer.message) && ApplyAll(p.base, p'.raw) == Ok(p'.writer.message)
  {
    RecordedStream(p, delta);
    ApplyAllConcat(p.base, p.raw, [delta]);
    ApplyAllConcat(p.base, Stream(p), [delta]);
    ApplyOne(p.writer.message, delta);
    if |p.writer.pending| > p.writer.sealedCount {
      PushedApplies(p.base, Stream(p), delta);
    }
  }

  lemma RecordKeepsSealed(p: Publishing, delta: StreamDelta)
    requires Inv(p) && Recorded(p.writer, delta).Ok?
    ensures
      var p', n := Next(p, Record(delta)), p.writer.sealedCount;
      && p'.writer.first == p.writer.first && p'.writer.sealedCount == n <= |p'.writer.pending|
      && p'.writer.pending[..n] == p.writer.pending[..n]
  {
  }

  lemma RecordStep(p: Publishing, delta: StreamDelta)
    requires Inv(p)
    ensures Inv(Next(p, Record(delta)))
  {
    if Recorded(p.writer, delta).Ok? {
      var p' := Next(p, Record(delta));
      RecordKeepsValue(p, delta);
      RecordKeepsSealed(p, delta);
      var sealed, sealed' := p.writer.pending[..p.writer.sealedCount], p'.writer.pending[..p.writer.sealedCount];
      forall k: nat | k < p.log.end
        ensures p.log.rows[k] == Stream(p')[k]
      {
        if k >= |p.acked| {
          assert sealed[k - |p.acked|] == sealed'[k - |p.acked|];
        }
      }
    }
  }

  lemma StoreStep(p: Publishing)
    requires Inv(p) && Enabled(p, StoreBatch)
    ensures Inv(Next(p, StoreBatch))
  {
    var first, batch := p.inflight.value.first, p.inflight.value.batch;
    var p' := Next(p, StoreBatch);
    assert batch == Stream(p)[first..first + |batch|];
    BatchStaysFaithful(p.log, first, batch, Stream(p));
    InsertedEnd(p.log, first, batch);
  }

  lemma {:induction false} InsertedEnd(log: Log, first: nat, deltas: seq<StreamDelta>)
    requires Bounded(log) && first <= log.end && forall k: nat :: k in log.rows <==> k < log.end
    ensures InsertBatch(log, first, deltas).end == if first + |deltas| < log.end then log.end else first + |deltas|
    decreases |deltas|
  {
    if deltas != [] {
      InsertedEnd(Insert(log, first, deltas[0]), first + 1, deltas[1..]);
    }
  }

  lemma InvStep(p: Publishing, step: Step)
    requires Inv(p) && Enabled(p, step)
    ensures Inv(Next(p, step))
  {
    match step
    case Record(delta) => RecordStep(p, delta);
    case StoreBatch => StoreStep(p);
    case Acknowledge => assert Stream(Next(p, step)) == Stream(p);
    case BeginPublish => assert p.writer.pending[..|p.writer.pending|] == p.writer.pending;
    case GiveUp =>
  }

  predicate Valid(p: Publishing, steps: seq<Step>)
    decreases |steps|
  {
    steps == [] || (Enabled(p, steps[0]) && Valid(Next(p, steps[0]), steps[1..]))
  }

  function After(p: Publishing, steps: seq<Step>): (r: Publishing)
    requires Valid(p, steps)
    decreases |steps|
  {
    if steps == [] then p else After(Next(p, steps[0]), steps[1..])
  }

  lemma {:induction false} InvRun(p: Publishing, steps: seq<Step>)
    requires Inv(p) && Valid(p, steps)
    ensures Inv(After(p, steps)) && After(p, steps).base == p.base
    decreases |steps|
  {
    if steps != [] {
      InvStep(p, steps[0]);
      InvRun(Next(p, steps[0]), steps[1..]);
    }
  }

  /**
   * At every moment a reader sees the stored base with a prefix of the numbered deltas
   * applied once each, however often batches were given up and resent; when nothing is
   * pending it sees the writer's own message, which is all recorded deltas applied in order.
   */
  lemma ReaderSeesPrefix(start: Publishing, steps: seq<Step>)
    requires Initial(start) && Valid(start, steps)
    ensures
      var p := After(start, steps);
      && p.base == start.base
      && p.log.end <= |Stream(p)|
      && (p.inflight.Some? ==> |p.inflight.value.batch| <= |p.writer.pending|)
      && Read(p.base, p.log) == ApplyAll(p.base, Stream(p)[..p.log.end])
      && Read(p.base, p.log).Ok?
      && (p.writer.pending == [] ==> Read(p.base, p.log) == Ok(p.writer.message) == ApplyAll(p.base, p.raw))
  {
    InvRun(start, steps);
    var p := After(start, steps);
    FullLogIsPrefix(p.log.rows, p.log.end, Stream(p), p.log.end);
    assert Stream(p) == Stream(p)[..p.log.end] + Stream(p)[p.log.end..];
    ApplyAllConcat(p.base, Stream(p)[..p.log.end], Stream(p)[p.log.end..]);
    if p.writer.pending == [] {
      assert Stream(p)[..p.log.end] == Stream(p);
    }
  }
}
