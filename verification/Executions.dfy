/**
 * Script executions: a record that moves through its phases, the output rows it
 * gathers while running, and the images attached to it.
 */
module Executions {
  import opened Types
  import opened Database

  type ExecutionId = string
  type Bytes = seq<bv8>

  datatype ExecutionPhase = Prepared | AwaitingApproval | Running | Finished

  datatype ExecutionStatus =
    | Completed
    | TimedOut
    | Denied
    | InvalidScript
    | FailedToStart
    | HostUnavailable
    | SandboxUnavailable
    | RuntimeError
    | Cancelled

  datatype Stream = Stdout | Stderr
  datatype Chunk = Chunk(stream: Stream, bytes: Bytes)
  datatype Row = Row(execution: ExecutionId, chunk: Chunk)

  /** An entry of the record's image map; entries are kept in order of their sequence. */
  datatype Attachment = Attachment(sequence: nat, image: Image)

  datatype Execution = Execution(
    session: SessionId,
    images: seq<Attachment>,
    phase: ExecutionPhase,
    status: Option<ExecutionStatus>,
    startedAt: Option<nat>,
    updatedAt: nat,
    exitCode: Option<int>,
    sandboxDenied: bool,
    error: Option<string>)

  datatype Completion = Completion(
    status: ExecutionStatus,
    exitCode: Option<int>,
    sandboxDenied: bool,
    error: Option<string>,
    stdout: Bytes,
    stderr: Bytes)

  datatype Store = Store(executions: map<ExecutionId, Execution>, output: seq<Row>)

  datatype Failure =
    | NotOwner(error: Error)
    | AlreadyExists
    | NotFound
    | WrongPhase
    | InvalidImage
    | ZeroSequence
    | SequenceReused
    | TooManyImages
    | TooManyImageBytes

  const MAX_IMAGE_BYTES: nat := 10485760
  const MAX_ATTACHMENTS: nat := 8

  // Output ------------------------------------------------------------------

  /** Appends a chunk, joining it to the last one of the same stream; empty chunks vanish. */
  function Joined(chunks: seq<Chunk>, chunk: Chunk): (r: seq<Chunk>) {
    if chunk.bytes == [] then chunks
    else if chunks != [] && chunks[|chunks| - 1].stream == chunk.stream then
      chunks[|chunks| - 1 := Chunk(chunk.stream, chunks[|chunks| - 1].bytes + chunk.bytes)]
    else chunks + [chunk]
  }

  function Coalesced(chunks: seq<Chunk>): (r: seq<Chunk>)
    decreases |chunks|
  {
    if chunks == [] then [] else Joined(Coalesced(chunks[..|chunks| - 1]), chunks[|chunks| - 1])
  }

  method CoalesceOutput(chunks: seq<Chunk>) returns (coalesced: seq<Chunk>)
    ensures coalesced == Coalesced(chunks)
  {
    coalesced := [];
    for i := 0 to |chunks|
      invariant coalesced == Coalesced(chunks[..i])
    {
      var chunk := chunks[i];
      assert Coalesced(chunks[..i + 1]) == Joined(coalesced, chunk) by {
        assert chunks[..i + 1][..i] == chunks[..i];
      }
      if chunk.bytes == [] {
        continue;
      }
      var last := |coalesced| - 1;
      if last >= 0 && coalesced[last].stream == chunk.stream {
        coalesced := coalesced[last := Chunk(chunk.stream, coalesced[last].bytes + chunk.bytes)];
      } else {
        coalesced := coalesced + [chunk];
      }
    }
    assert chunks[..|chunks|] == chunks;
  }

  /** Every byte with the stream it belongs to, in order of arrival. */
  function Tagged(chunks: seq<Chunk>): (r: seq<(Stream, bv8)>)
    decreases |chunks|
  {
    if chunks == [] then [] else
    var last := chunks[|chunks| - 1];
    Tagged(chunks[..|chunks| - 1]) + seq(|last.bytes|, i requires 0 <= i < |last.bytes| => (last.stream, last.bytes[i]))
  }

  /** The bytes of one stream. */
  function StreamOf(chunks: seq<Chunk>, stream: Stream): (r: Bytes)
    decreases |chunks|
  {
    if chunks == [] then [] else
    var last := chunks[|chunks| - 1];
    StreamOf(chunks[..|chunks| - 1], stream) + (if last.stream == stream then last.bytes else [])
  }

  /** No empty chunk, no two neighbours of one stream. */
  predicate Canonical(chunks: seq<Chunk>) {
    && (forall i | 0 <= i < |chunks| :: chunks[i].bytes != [])
    && (forall i | 0 < i < |chunks| :: chunks[i - 1].stream != chunks[i].stream)
  }

  /** A joined chunk is the last one and the new one together. */
  lemma JoinedLast(chunks: seq<Chunk>, chunk: Chunk)
    requires chunk.bytes != [] && chunks != [] && chunks[|chunks| - 1].stream == chunk.stream
    ensures
      var joined := Joined(chunks, chunk);
      && |joined| == |chunks| && joined[..|joined| - 1] == chunks[..|chunks| - 1]
      && joined[|joined| - 1] == Chunk(chunk.stream, chunks[|chunks| - 1].bytes + chunk.bytes)
  {
  }

  lemma JoinedTagged(chunks: seq<Chunk>, chunk: Chunk)
    ensures Tagged(Joined(chunks, chunk)) == Tagged(chunks + [chunk])
  {
    assert (chunks + [chunk])[..|chunks|] == chunks;
    if chunk.bytes != [] && chunks != [] && chunks[|chunks| - 1].stream == chunk.stream {
      JoinedLast(chunks, chunk);
    }
  }

  lemma JoinedStream(chunks: seq<Chunk>, chunk: Chunk, stream: Stream)
    ensures StreamOf(Joined(chunks, chunk), stream) == StreamOf(chunks + [chunk], stream)
  {
    assert (chunks + [chunk])[..|chunks|] == chunks;
    if chunk.bytes != [] && chunks != [] && chunks[|chunks| - 1].stream == chunk.stream {
      JoinedLast(chunks, chunk);
    }
  }

  lemma JoinedCanonical(chunks: seq<Chunk>, chunk: Chunk)
    requires Canonical(chunks)
    ensures Canonical(Joined(chunks, chunk))
  {
  }

  /** Coalescing keeps every byte, its stream and the order across streams, in the fewest chunks. */
  lemma {:induction false} CoalescedFaithful(chunks: seq<Chunk>, stream: Stream)
    ensures Tagged(Coalesced(chunks)) == Tagged(chunks)
            && StreamOf(Coalesced(chunks), stream) == StreamOf(chunks, stream)
    ensures Canonical(Coalesced(chunks))
    decreases |chunks|
  {
    if chunks != [] {
      var front, last := chunks[..|chunks| - 1], chunks[|chunks| - 1];
      CoalescedFaithful(front, stream);
      JoinedTagged(Coalesced(front), last);
      JoinedStream(Coalesced(front), last, stream);
      JoinedCanonical(Coalesced(front), last);
      assert (Coalesced(front) + [last])[..|Coalesced(front)|] == Coalesced(front);
    }
  }

  /** The chunks stored for one execution. */
  function ChunksOf(output: seq<Row>, id: ExecutionId): (r: seq<Chunk>)
    decreases |output|
  {
    if output == [] then [] else
    var last := output[|output| - 1];
    ChunksOf(output[..|output| - 1], id) + (if last.execution == id then [last.chunk] else [])
  }

  function RowsFor(id: ExecutionId, chunks: seq<Chunk>): (r: seq<Row>) {
    seq(|chunks|, i requires 0 <= i < |chunks| => Row(id, chunks[i]))
  }

  /** The rows left by deleting those of `gone`. */
  function Without(output: seq<Row>, gone: set<ExecutionId>): (r: seq<Row>)
    decreases |output|
  {
    if output == [] then [] else
    var last := output[|output| - 1];
    Without(output[..|output| - 1], gone) + (if last.execution in gone then [] else [last])
  }

  lemma OneRowMore(output: seq<Row>, i: nat, id: ExecutionId, stream: Stream)
    requires i < |output|
    ensures StreamOf(ChunksOf(output[..i + 1], id), stream)
         == StreamOf(ChunksOf(output[..i], id), stream)
            + (if output[i].execution == id && output[i].chunk.stream == stream then output[i].chunk.bytes else [])
  {
    assert output[..i + 1][..i] == output[..i];
    var seen, chunk := ChunksOf(output[..i], id), output[i].chunk;
    if output[i].execution == id {
      assert (seen + [chunk])[..|seen|] == seen;
    } else {
      assert ChunksOf(output[..i + 1], id) == seen;
    }
  }

  /** `read_output`: both streams of an execution, from its rows in order. */
  method ReadOutput(store: Store, id: ExecutionId) returns (r: Result<(Bytes, Bytes), Failure>)
    ensures r == if id !in store.executions then Err(NotFound)
                 else Ok((StreamOf(ChunksOf(store.output, id), Stdout), StreamOf(ChunksOf(store.output, id), Stderr)))
  {
    if id !in store.executions {
      return Err(NotFound);
    }
    var stdout, stderr := [], [];
    for i := 0 to |store.output|
      invariant stdout == StreamOf(ChunksOf(store.output[..i], id), Stdout)
      invariant stderr == StreamOf(ChunksOf(store.output[..i], id), Stderr)
    {
      OneRowMore(store.output, i, id, Stdout);
      OneRowMore(store.output, i, id, Stderr);
      var row := store.output[i];
      if row.execution == id {
        match row.chunk.stream
        case Stdout => stdout := stdout + row.chunk.bytes;
        case Stderr => stderr := stderr + row.chunk.bytes;
      }
    }
    assert store.output[..|store.output|] == store.output;
    return Ok((stdout, stderr));
  }

  lemma {:induction false} StreamOfConcat(a: seq<Chunk>, b: seq<Chunk>, stream: Stream)
    ensures StreamOf(a + b, stream) == StreamOf(a, stream) + StreamOf(b, stream)
    decreases |b|
  {
    if b == [] {
      assert a + b == a;
    } else {
      assert (a + b)[..|a + b| - 1] == a + b[..|b| - 1];
      StreamOfConcat(a, b[..|b| - 1], stream);
    }
  }

  lemma {:induction false} ChunksOfConcat(a: seq<Row>, b: seq<Row>, id: ExecutionId)
    ensures ChunksOf(a + b, id) == ChunksOf(a, id) + ChunksOf(b, id)
    decreases |b|
  {
    if b == [] {
      assert a + b == a;
    } else {
      assert (a + b)[..|a + b| - 1] == a + b[..|b| - 1];
      ChunksOfConcat(a, b[..|b| - 1], id);
    }
  }

  lemma {:induction false} ChunksOfRows(id: ExecutionId, chunks: seq<Chunk>, other: ExecutionId)
    ensures ChunksOf(RowsFor(id, chunks), other) == if id == other then chunks else []
    decreases |chunks|
  {
    if chunks != [] {
      var front := chunks[..|chunks| - 1];
      assert RowsFor(id, chunks)[..|front|] == RowsFor(id, front);
      ChunksOfRows(id, front, other);
    }
  }

  lemma {:induction false} ChunksOfWithout(output: seq<Row>, gone: set<ExecutionId>, id: ExecutionId)
    ensures ChunksOf(Without(output, gone), id) == if id in gone then [] else ChunksOf(output, id)
    decreases |output|
  {
    if output != [] {
      var front, last := output[..|output| - 1], output[|output| - 1];
      ChunksOfWithout(front, gone, id);
      var kept := Without(front, gone);
      assert ChunksOf(output, id) == ChunksOf(front, id) + (if last.execution == id then [last.chunk] else []);
      if last.execution in gone {
        assert Without(output, gone) == kept;
      } else {
        assert Without(output, gone) == kept + [last] && (kept + [last])[..|kept|] == kept;
      }
    }
  }

  /** Appended rows reach their own execution only. */
  lemma AppendedRows(output: seq<Row>, id: ExecutionId, chunks: seq<Chunk>, other: ExecutionId)
    ensures ChunksOf(output + RowsFor(id, chunks), other)
            == ChunksOf(output, other) + (if id == other then chunks else [])
  {
    ChunksOfConcat(output, RowsFor(id, chunks), other);
    ChunksOfRows(id, chunks, other);
  }

  lemma ReplacedRows(output: seq<Row>, id: ExecutionId, chunks: seq<Chunk>, other: ExecutionId)
    ensures ChunksOf(Without(output, {id}) + RowsFor(id, chunks), other)
            == if id == other then chunks else ChunksOf(output, other)
  {
    AppendedRows(Without(output, {id}), id, chunks, other);
    ChunksOfWithout(output, {id}, other);
    if id == other {
      assert [] + chunks == chunks;
    } else {
      assert ChunksOf(output, other) + [] == ChunksOf(output, other);
    }
  }

  // Images ------------------------------------------------------------------

  function AttachedBytes(images: seq<Attachment>): (r: nat)
    decreases |images|
  {
    if images == [] then 0 else AttachedBytes(images[..|images| - 1]) + images[|images| - 1].image.byteLength
  }

  function FindImage(images: seq<Attachment>, sequence: nat): (r: Option<Image>)
    decreases |images|
  {
    if images == [] then None
    else if images[|images| - 1].sequence == sequence then Some(images[|images| - 1].image)
    else FindImage(images[..|images| - 1], sequence)
  }

  function InsertImage(images: seq<Attachment>, a: Attachment): (r: seq<Attachment>)
    decreases |images|
  {
    if images == [] || images[|images| - 1].sequence < a.sequence then images + [a]
    else InsertImage(images[..|images| - 1], a) + [images[|images| - 1]]
  }

  predicate Ordered(images: seq<Attachment>) {
    forall i, j | 0 <= i < j < |images| :: images[i].sequence < images[j].sequence
  }

  lemma {:induction false} InsertedMembers(images: seq<Attachment>, a: Attachment)
    ensures
      var r := InsertImage(images, a);
      && |r| == |images| + 1 && AttachedBytes(r) == AttachedBytes(images) + a.image.byteLength
      && (forall x :: x in r <==> x in images || x == a)
    decreases |images|
  {
    var r := InsertImage(images, a);
    if images == [] || images[|images| - 1].sequence < a.sequence {
      assert r[..|r| - 1] == images;
    } else {
      var front, last := images[..|images| - 1], images[|images| - 1];
      assert images == front + [last];
      InsertedMembers(front, a);
      assert r[..|r| - 1] == InsertImage(front, a);
    }
  }

  /** The map stays ordered and gains exactly the new entry. */
  lemma {:induction false} InsertedImage(images: seq<Attachment>, a: Attachment)
    requires Ordered(images) && FindImage(images, a.sequence).None?
    ensures Ordered(InsertImage(images, a))
    decreases |images|
  {
    if images != [] && images[|images| - 1].sequence >= a.sequence {
      var front, last := images[..|images| - 1], images[|images| - 1];
      InsertedImage(front, a);
      InsertedMembers(front, a);
      var inner := InsertImage(front, a);
      forall i | 0 <= i < |inner|
        ensures inner[i].sequence < last.sequence
      {
        assert inner[i] in inner;
      }
    }
  }

  /** The number, if 64 bits can hold it. */
  function Representable(n: nat): (r: Option<nat>) {
    if n <= U64_MAX then Some(n) else None
  }

  function CheckedAdd(a: Option<nat>, b: nat): (r: Option<nat>) {
    if a.None? || a.value + b > U64_MAX then None else Some(a.value + b)
  }

  /** The new image's bytes plus those already stored, or nothing on 64-bit overflow. */
  method TotalWith(images: seq<Attachment>, byteLength: nat) returns (total: Option<nat>)
    requires byteLength <= U64_MAX
    ensures total == Representable(byteLength + AttachedBytes(images))
  {
    total := Some(byteLength);
    for i := 0 to |images|
      invariant total == Representable(byteLength + AttachedBytes(images[..i]))
    {
      assert images[..i + 1][..i] == images[..i];
      total := CheckedAdd(total, images[i].image.byteLength);
    }
    assert images[..|images|] == images;
  }

  predicate LowerHex(c: char) {
    '0' <= c <= '9' || 'a' <= c <= 'f'
  }

  predicate ValidImage(image: Image) {
    && |image.id| == 64 && (forall c | c in image.id :: LowerHex(c))
    && 0 < image.byteLength <= MAX_IMAGE_BYTES
  }

  // Operations --------------------------------------------------------------

  /** What each status may follow. */
  predicate MayFinish(phase: ExecutionPhase, status: ExecutionStatus) {
    match status
    case Denied | InvalidScript => phase == Prepared || phase == AwaitingApproval
    case FailedToStart | HostUnavailable | SandboxUnavailable | RuntimeError =>
      phase == Prepared || phase == AwaitingApproval || phase == Running
    case Cancelled => phase == AwaitingApproval || phase == Running
    case Completed | TimedOut => phase == Running
  }

  /** Who asks, as the database and the runtime see it, and when. */
  datatype Caller = Caller(sessions: Sessions, tokens: Tokens, now: nat)

  datatype Operation =
    | Create(id: ExecutionId, session: SessionId)
    | MarkAwaitingApproval(id: ExecutionId)
    | MarkRunning(id: ExecutionId)
    | AppendImage(id: ExecutionId, sequence: nat, image: Image)
    | AppendOutput(id: ExecutionId, chunks: seq<Chunk>)
    | Finish(id: ExecutionId, completion: Completion)
    | DeleteSession(session: SessionId)

  function Owned(caller: Caller, session: SessionId): (r: Result<(), Failure>) {
    var owner := AssertOwner(caller.sessions, caller.tokens, session);
    if owner.Ok? then Ok(()) else Err(NotOwner(owner.error))
  }

  function Fetch(store: Store, caller: Caller, id: ExecutionId): (r: Result<Execution, Failure>) {
    if id !in store.executions then Err(NotFound) else
    var _ :- Owned(caller, store.executions[id].session);
    Ok(store.executions[id])
  }

  function Saved(store: Store, caller: Caller, id: ExecutionId, e: Execution): (r: Store) {
    store.(executions := store.executions[id := e.(updatedAt := caller.now)])
  }

  function Transition(store: Store, caller: Caller, id: ExecutionId, expected: set<ExecutionPhase>,
                      target: ExecutionPhase)
    : (r: Result<Store, Failure>)
  {
    var e :- Fetch(store, caller, id);
    if e.phase !in expected then Err(WrongPhase) else
    Ok(Saved(store, caller, id,
             e.(phase := target, startedAt := if target == Running then Some(caller.now) else e.startedAt)))
  }

  function AttachImage(store: Store, caller: Caller, id: ExecutionId, sequence: nat, image: Image)
    : (r: Result<Store, Failure>)
  {
    if !ValidImage(image) then Err(InvalidImage)
    else if sequence == 0 then Err(ZeroSequence)
    else
      var e :- Fetch(store, caller, id);
      var existing := FindImage(e.images, sequence);
      if existing.Some? then
        if existing.value == image then Ok(Saved(store, caller, id, e)) else Err(SequenceReused)
      else if e.phase != Running then Err(WrongPhase)
      else if |e.images| >= MAX_ATTACHMENTS then Err(TooManyImages)
      else if AttachedBytes(e.images) + image.byteLength > MAX_REQUEST_IMAGE_BYTES then Err(TooManyImageBytes)
      else Ok(Saved(store, caller, id, e.(images := InsertImage(e.images, Attachment(sequence, image)))))
  }

  function WriteOutput(store: Store, caller: Caller, id: ExecutionId, chunks: seq<Chunk>): (r: Result<Store, Failure>) {
    if Coalesced(chunks) == [] then Ok(store) else
    var e :- Fetch(store, caller, id);
    if e.phase != Running then Err(WrongPhase) else
    var saved := Saved(store, caller, id, e);
    Ok(saved.(output := saved.output + RowsFor(id, Coalesced(chunks))))
  }

  function NonEmpty(chunk: Chunk): (r: seq<Chunk>) {
    if chunk.bytes == [] then [] else [chunk]
  }

  function FinalChunks(completion: Completion): (r: seq<Chunk>) {
    NonEmpty(Chunk(Stdout, completion.stdout)) + NonEmpty(Chunk(Stderr, completion.stderr))
  }

  function Conclude(store: Store, caller: Caller, id: ExecutionId, completion: Completion)
    : (r: Result<Store, Failure>)
  {
    var e :- Fetch(store, caller, id);
    if !MayFinish(e.phase, completion.status) then Err(WrongPhase) else
    var finished := e.(phase := Finished, status := Some(completion.status), exitCode := completion.exitCode,
                       sandboxDenied := completion.sandboxDenied, error := completion.error);
    var saved := Saved(store, caller, id, finished);
    Ok(saved.(output := Without(store.output, {id}) + RowsFor(id, FinalChunks(completion))))
  }

  function OfSession(executions: map<ExecutionId, Execution>, session: SessionId): (r: set<ExecutionId>) {
    set id | id in executions && executions[id].session == session
  }

  function Apply(store: Store, caller: Caller, op: Operation): (r: Result<Store, Failure>) {
    match op
    case Create(id, session) =>
      var _ :- Owned(caller, session);
      if id in store.executions then Err(AlreadyExists) else
      Ok(Saved(store, caller, id, Execution(session, [], Prepared, None, None, caller.now, None, false, None)))
    case MarkAwaitingApproval(id) => Transition(store, caller, id, {Prepared}, AwaitingApproval)
    case MarkRunning(id) => Transition(store, caller, id, {Prepared, AwaitingApproval}, Running)
    case AppendImage(id, sequence, image) => AttachImage(store, caller, id, sequence, image)
    case AppendOutput(id, chunks) => WriteOutput(store, caller, id, chunks)
    case Finish(id, completion) => Conclude(store, caller, id, completion)
    case DeleteSession(session) =>
      var _ :- Owned(caller, session);
      var gone := OfSession(store.executions, session);
      Ok(Store(store.executions - gone, Without(store.output, gone)))
  }

  /** The store whose transactions change records and rows in place. */
  class ExecutionStore {
    var store: Store

    constructor ()
      ensures store == Store(map[], [])
    {
      store := Store(map[], []);
    }

    method Move(caller: Caller, id: ExecutionId, expected: set<ExecutionPhase>, target: ExecutionPhase)
      returns (r: Result<(), Failure>)
      modifies this
      ensures
        match Transition(old(store), caller, id, expected, target)
        case Ok(next) => r == Ok(()) && store == next
        case Err(e) => r == Err(e) && store == old(store)
    {
      var e :- Fetch(store, caller, id);
      if e.phase !in expected { return Err(WrongPhase); }
      e := e.(phase := target);
      if target == Running {
        e := e.(startedAt := Some(caller.now));
      }
      store := Saved(store, caller, id, e);
      return Ok(());
    }

    method AppendImage(caller: Caller, id: ExecutionId, sequence: nat, image: Image) returns (r: Result<(), Failure>)
      requires image.byteLength <= U64_MAX
      modifies this
      ensures
        match Apply(old(store), caller, Operation.AppendImage(id, sequence, image))
        case Ok(next) => r == Ok(()) && store == next
        case Err(e) => r == Err(e) && store == old(store)
    {
      if !ValidImage(image) { return Err(InvalidImage); }
      if sequence == 0 { return Err(ZeroSequence); }
      var e :- Fetch(store, caller, id);
      var existing := FindImage(e.images, sequence);
      if existing.Some? {
        if existing.value != image { return Err(SequenceReused); }
      } else {
        if e.phase != Running { return Err(WrongPhase); }
        if |e.images| >= MAX_ATTACHMENTS { return Err(TooManyImages); }
        var total := TotalWith(e.images, image.byteLength);
        if total.None? || total.value > MAX_REQUEST_IMAGE_BYTES { return Err(TooManyImageBytes); }
        e := e.(images := InsertImage(e.images, Attachment(sequence, image)));
      }
      store := Saved(store, caller, id, e);
      return Ok(());
    }

    method AppendOutput(caller: Caller, id: ExecutionId, chunks: seq<Chunk>) returns (r: Result<(), Failure>)
      modifies this
      ensures
        match Apply(old(store), caller, Operation.AppendOutput(id, chunks))
        case Ok(next) => r == Ok(()) && store == next
        case Err(e) => r == Err(e) && store == old(store)
    {
      var coalesced := CoalesceOutput(chunks);
      if coalesced == [] { return Ok(()); }
      var e :- Fetch(store, caller, id);
      if e.phase != Running { return Err(WrongPhase); }
      var rows := store.output;
      for i := 0 to |coalesced|
        invariant rows == store.output + RowsFor(id, coalesced)[..i] && store == old(store)
      {
        rows := rows + [Row(id, coalesced[i])];
      }
      assert RowsFor(id, coalesced)[..|coalesced|] == RowsFor(id, coalesced);
      store := Saved(store, caller, id, e).(output := rows);
      return Ok(());
    }

    method Finish(caller: Caller, id: ExecutionId, completion: Completion) returns (r: Result<(), Failure>)
      modifies this
      ensures
        match Apply(old(store), caller, Operation.Finish(id, completion))
        case Ok(next) => r == Ok(()) && store == next
        case Err(e) => r == Err(e) && store == old(store)
    {
      var e :- Fetch(store, caller, id);
      if !MayFinish(e.phase, completion.status) { return Err(WrongPhase); }
      var rows := Without(store.output, {id});
      if completion.stdout != [] { rows := rows + [Row(id, Chunk(Stdout, completion.stdout))]; }
      if completion.stderr != [] { rows := rows + [Row(id, Chunk(Stderr, completion.stderr))]; }
      assert rows == Without(store.output, {id}) + RowsFor(id, FinalChunks(completion));
      e := e.(phase := Finished, status := Some(completion.status), exitCode := completion.exitCode,
              sandboxDenied := completion.sandboxDenied, error := completion.error);
      store := Saved(store, caller, id, e).(output := rows);
      return Ok(());
    }
  }

  // Runs --------------------------------------------------------------------

  datatype Step = Step(caller: Caller, op: Operation)

  function Next(store: Store, step: Step): (r: Store) {
    var applied := Apply(store, step.caller, step.op);
    if applied.Ok? then applied.value else store
  }

  function After(store: Store, steps: seq<Step>): (r: Store)
    decreases |steps|
  {
    if steps == [] then store else Next(After(store, steps[..|steps| - 1]), steps[|steps| - 1])
  }

  const START: Store := Store(map[], [])

  ghost predicate Lifecycle(e: Execution) {
    && (e.status.Some? <==> e.phase == Finished)
    && (e.phase == Prepared || e.phase == AwaitingApproval ==> e.startedAt.None?)
    && (e.phase == Running ==> e.startedAt.Some?)
    && (e.status == Some(Completed) || e.status == Some(TimedOut) ==> e.startedAt.Some?)
    && (e.status == Some(Denied) || e.status == Some(InvalidScript) ==> e.startedAt.None?)
    && (e.images != [] ==> e.startedAt.Some?)
  }

  ghost predicate ImagesBounded(e: Execution) {
    Ordered(e.images) && |e.images| <= MAX_ATTACHMENTS && AttachedBytes(e.images) <= MAX_REQUEST_IMAGE_BYTES
  }

  /** Output rows belong to executions that were started or finished. */
  ghost predicate Quiet(store: Store, id: ExecutionId) {
    ChunksOf(store.output, id) == []
    || Started(store, id)
  }

  ghost predicate Inv(store: Store) {
    && (forall id | id in store.executions :: Lifecycle(store.executions[id]) && ImagesBounded(store.executions[id]))
    && (forall id :: Quiet(store, id))
  }

  /** What a step leaves stored for an execution. */
  ghost function ChunksAfter(store: Store, step: Step, id: ExecutionId): (r: seq<Chunk>) {
    var before := ChunksOf(store.output, id);
    if Apply(store, step.caller, step.op).Err? then before
    else if step.op.AppendOutput? && step.op.id == id then before + Coalesced(step.op.chunks)
    else if step.op.Finish? && step.op.id == id then FinalChunks(step.op.completion)
    else if step.op.DeleteSession? && id in OfSession(store.executions, step.op.session) then []
    else before
  }

  lemma WriteOutputStep(store: Store, step: Step, id: ExecutionId)
    requires step.op.AppendOutput?
    ensures ChunksOf(Next(store, step).output, id) == ChunksAfter(store, step, id)
  {
    AppendedRows(store.output, step.op.id, Coalesced(step.op.chunks), id);
  }

  lemma ConcludeStep(store: Store, step: Step, id: ExecutionId)
    requires step.op.Finish?
    ensures ChunksOf(Next(store, step).output, id) == ChunksAfter(store, step, id)
  {
    ReplacedRows(store.output, step.op.id, FinalChunks(step.op.completion), id);
  }

  lemma DeleteStep(store: Store, step: Step, id: ExecutionId)
    requires step.op.DeleteSession?
    ensures ChunksOf(Next(store, step).output, id) == ChunksAfter(store, step, id)
  {
    ChunksOfWithout(store.output, OfSession(store.executions, step.op.session), id);
  }

  lemma OutputStep(store: Store, step: Step, id: ExecutionId)
    ensures ChunksOf(Next(store, step).output, id) == ChunksAfter(store, step, id)
  {
    if step.op.AppendOutput? {
      WriteOutputStep(store, step, id);
    } else if step.op.Finish? {
      ConcludeStep(store, step, id);
    } else if step.op.DeleteSession? {
      DeleteStep(store, step, id);
    } else {
      assert Next(store, step).output == store.output;
    }
  }

  lemma FinishLifecycle(store: Store, step: Step, id: ExecutionId)
    requires id in Next(store, step).executions && step.op.Finish?
    requires id in store.executions ==> Lifecycle(store.executions[id])
    ensures Lifecycle(Next(store, step).executions[id])
  {
  }

  lemma PhaseLifecycle(store: Store, step: Step, id: ExecutionId)
    requires id in Next(store, step).executions && (step.op.MarkAwaitingApproval? || step.op.MarkRunning?)
    requires id in store.executions ==> Lifecycle(store.executions[id])
    ensures Lifecycle(Next(store, step).executions[id])
  {
  }

  lemma OtherLifecycle(store: Store, step: Step, id: ExecutionId)
    requires id in Next(store, step).executions && !step.op.Finish? && !step.op.MarkAwaitingApproval?
             && !step.op.MarkRunning?
    requires id in store.executions ==> Lifecycle(store.executions[id])
    ensures Lifecycle(Next(store, step).executions[id])
  {
  }

  lemma LifecycleStep(store: Store, step: Step, id: ExecutionId)
    requires id in Next(store, step).executions
    requires id in store.executions ==> Lifecycle(store.executions[id])
    ensures Lifecycle(Next(store, step).executions[id])
  {
    if step.op.Finish? {
      FinishLifecycle(store, step, id);
    } else if step.op.MarkAwaitingApproval? || step.op.MarkRunning? {
      PhaseLifecycle(store, step, id);
    } else {
      OtherLifecycle(store, step, id);
    }
  }

  lemma ImagesStep(store: Store, step: Step, id: ExecutionId)
    requires id in Next(store, step).executions
    requires id in store.executions ==> ImagesBounded(store.executions[id])
    ensures ImagesBounded(Next(store, step).executions[id])
  {
    if step.op.AppendImage? && step.op.id == id && id in store.executions {
      var e, a := store.executions[id], Attachment(step.op.sequence, step.op.image);
      if FindImage(e.images, step.op.sequence).None? {
        InsertedImage(e.images, a);
        InsertedMembers(e.images, a);
      }
    }
  }

  predicate Started(store: Store, id: ExecutionId) {
    id in store.executions && (store.executions[id].phase == Running || store.executions[id].phase == Finished)
  }

  /** Only starting or finishing an execution makes it one that may have output. */
  lemma StartedStep(store: Store, step: Step, id: ExecutionId)
    ensures Started(store, id) ==> Started(Next(store, step), id) || ChunksAfter(store, step, id) == []
    ensures !Started(store, id) && ChunksOf(store.output, id) == [] ==>
              Started(Next(store, step), id) || ChunksAfter(store, step, id) == []
  {
  }

  lemma QuietStep(store: Store, step: Step, id: ExecutionId)
    requires Quiet(store, id)
    ensures Quiet(Next(store, step), id)
  {
    OutputStep(store, step, id);
    StartedStep(store, step, id);
  }

  lemma InvStep(store: Store, step: Step)
    requires Inv(store)
    ensures Inv(Next(store, step))
  {
    var next := Next(store, step);
    forall id | id in next.executions
      ensures Lifecycle(next.executions[id]) && ImagesBounded(next.executions[id])
    {
      LifecycleStep(store, step, id);
      ImagesStep(store, step, id);
    }
    forall id
      ensures Quiet(next, id)
    {
      QuietStep(store, step, id);
    }
  }

  /** Over every run the lifecycle and the image limits hold of every record. */
  lemma {:induction false} InvRun(store: Store, steps: seq<Step>)
    requires Inv(store)
    ensures Inv(After(store, steps))
    decreases |steps|
  {
    if steps != [] {
      var front := steps[..|steps| - 1];
      InvRun(store, front);
      InvStep(After(store, front), steps[|steps| - 1]);
    }
  }

  lemma LifecycleHolds(steps: seq<Step>, id: ExecutionId)
    requires id in After(START, steps).executions
    ensures
      var e := After(START, steps).executions[id];
      Lifecycle(e) && ImagesBounded(e)
  {
    assert Inv(START);
    InvRun(START, steps);
  }

  // What each operation takes and does ---------------------------------------

  /** The execution exists and this runtime may write its session. */
  predicate Reachable(store: Store, caller: Caller, id: ExecutionId) {
    id in store.executions && AssertOwner(caller.sessions, caller.tokens, store.executions[id].session).Ok?
  }

  /** The same table as `MayFinish`, by phase. */
  function Outcomes(phase: ExecutionPhase): (r: set<ExecutionStatus>) {
    match phase
    case Prepared => {Denied, InvalidScript, FailedToStart, HostUnavailable, SandboxUnavailable, RuntimeError}
    case AwaitingApproval =>
      {Denied, InvalidScript, FailedToStart, HostUnavailable, SandboxUnavailable, RuntimeError,
       ExecutionStatus.Cancelled}
    case Running =>
      {Completed, TimedOut, FailedToStart, HostUnavailable, SandboxUnavailable, RuntimeError,
       ExecutionStatus.Cancelled}
    case Finished => {}
  }

  lemma {:induction false} ImageFound(images: seq<Attachment>, sequence: nat, image: Image)
    requires Ordered(images)
    ensures FindImage(images, sequence) == Some(image) <==> Attachment(sequence, image) in images
    ensures FindImage(images, sequence).None? <==> forall a | a in images :: a.sequence != sequence
    decreases |images|
  {
    if images != [] {
      var front, last := images[..|images| - 1], images[|images| - 1];
      ImageFound(front, sequence, image);
      assert forall a :: a in images <==> a in front || a == last;
      forall a | a in front
        ensures a.sequence < last.sequence
      {
        var i :| 0 <= i < |front| && front[i] == a;
      }
    }
  }

  lemma {:induction false} CoalescedNothing(chunks: seq<Chunk>)
    ensures Coalesced(chunks) == [] <==> forall c | c in chunks :: c.bytes == []
    decreases |chunks|
  {
    if chunks != [] {
      var front, last := chunks[..|chunks| - 1], chunks[|chunks| - 1];
      CoalescedNothing(front);
      assert forall c :: c in chunks <==> c in front || c == last;
    }
  }

  /** When an image is accepted. */
  ghost predicate Accepted(e: Execution, sequence: nat, image: Image) {
    && |image.id| == 64 && (forall c | c in image.id :: '0' <= c <= '9' || 'a' <= c <= 'f')
    && 0 < image.byteLength <= 10 * 1024 * 1024 && sequence > 0
    && if exists a | a in e.images :: a.sequence == sequence then Attachment(sequence, image) in e.images
       else e.phase == Running && |e.images| < 8
            && AttachedBytes(e.images) + image.byteLength <= 32 * 1024 * 1024
  }

  lemma ImageAllowed(store: Store, caller: Caller, id: ExecutionId, sequence: nat, image: Image)
    requires id in store.executions ==> Ordered(store.executions[id].images)
    ensures AttachImage(store, caller, id, sequence, image).Ok? <==>
            Reachable(store, caller, id) && Accepted(store.executions[id], sequence, image)
  {
    if id in store.executions {
      ImageFound(store.executions[id].images, sequence, image);
    }
  }

  /** Every operation succeeds exactly when this says so. */
  lemma OperationAllowed(store: Store, caller: Caller, op: Operation)
    requires forall id | id in store.executions :: Ordered(store.executions[id].images)
    ensures Apply(store, caller, op).Ok? <==>
            match op
            case Create(id, session) =>
              AssertOwner(caller.sessions, caller.tokens, session).Ok? && id !in store.executions
            case MarkAwaitingApproval(id) => Reachable(store, caller, id) && store.executions[id].phase == Prepared
            case MarkRunning(id) =>
              Reachable(store, caller, id)
              && (store.executions[id].phase == Prepared || store.executions[id].phase == AwaitingApproval)
            case AppendImage(id, sequence, image) =>
              Reachable(store, caller, id) && Accepted(store.executions[id], sequence, image)
            case AppendOutput(id, chunks) =>
              (forall c | c in chunks :: c.bytes == [])
              || (Reachable(store, caller, id) && store.executions[id].phase == Running)
            case Finish(id, completion) =>
              Reachable(store, caller, id) && completion.status in Outcomes(store.executions[id].phase)
            case DeleteSession(session) => AssertOwner(caller.sessions, caller.tokens, session).Ok?
  {
    match op
    case AppendImage(id, sequence, image) => ImageAllowed(store, caller, id, sequence, image);
    case AppendOutput(_, chunks) => CoalescedNothing(chunks);
    case _ =>
  }

  /** The record an operation on it leaves. */
  ghost predicate Changed(e: Execution, e': Execution, op: Operation, now: nat) {
    match op
    case MarkAwaitingApproval(_) => e' == e.(phase := AwaitingApproval, updatedAt := now)
    case MarkRunning(_) => e' == e.(phase := Running, startedAt := Some(now), updatedAt := now)
    case AppendImage(_, sequence, image) =>
      e' == e.(images := e'.images, updatedAt := now)
      && forall a :: a in e'.images <==> a in e.images || a == Attachment(sequence, image)
    case AppendOutput(_, chunks) =>
      e' == if forall c | c in chunks :: c.bytes == [] then e else e.(updatedAt := now)
    case Finish(_, done) =>
      e' == e.(phase := Finished, status := Some(done.status), exitCode := done.exitCode,
               sandboxDenied := done.sandboxDenied, error := done.error, updatedAt := now)
    case _ => true
  }

  /** A successful operation changes its own record so, and no other. */
  lemma RecordChanged(store: Store, caller: Caller, op: Operation, id: ExecutionId)
    requires Apply(store, caller, op).Ok? && (id in store.executions ==> Ordered(store.executions[id].images))
    ensures
      var next := Apply(store, caller, op).value;
      match op
      case Create(own, session) =>
        && own in next.executions && next.executions - {own} == store.executions - {own}
        && next.executions[own]
           == Execution(session, [], Prepared, None, None, caller.now, None, false, None)
      case DeleteSession(session) =>
        && (id in next.executions <==> id in store.executions && store.executions[id].session != session)
        && (id in next.executions ==> next.executions[id] == store.executions[id])
      case _ =>
        && (id in next.executions <==> id in store.executions)
        && (id in store.executions && id != op.id ==> next.executions[id] == store.executions[id])
        && (id in store.executions && id == op.id ==>
              Changed(store.executions[id], next.executions[id], op, caller.now))
  {
    match op
    case AppendOutput(_, chunks) => CoalescedNothing(chunks);
    case AppendImage(own, sequence, image) =>
      if id == own && id in store.executions {
        ImageChanged(store, caller, id, sequence, image);
      }
    case _ =>
  }

  lemma ImageChanged(store: Store, caller: Caller, id: ExecutionId, sequence: nat, image: Image)
    requires AttachImage(store, caller, id, sequence, image).Ok?
    requires id in store.executions && Ordered(store.executions[id].images)
    ensures
      var e, e' := store.executions[id], AttachImage(store, caller, id, sequence, image).value.executions[id];
      && e' == e.(images := e'.images, updatedAt := caller.now)
      && forall a :: a in e'.images <==> a in e.images || a == Attachment(sequence, image)
  {
    ImageFound(store.executions[id].images, sequence, image);
    InsertedMembers(store.executions[id].images, Attachment(sequence, image));
  }

  /** The executions of a session leased to another runtime are out of reach. */
  lemma ExecutionsIsolated(store: Store, step: Step, id: ExecutionId)
    requires id in store.executions
    requires LeasedElsewhere(step.caller.sessions, step.caller.tokens, store.executions[id].session)
    ensures
      var next := Next(store, step);
      && id in next.executions && next.executions[id] == store.executions[id]
      && ChunksOf(next.output, id) == ChunksOf(store.output, id)
  {
    OutputStep(store, step, id);
    if step.op.AppendOutput? && step.op.id == id {
      assert ChunksOf(store.output, id) + [] == ChunksOf(store.output, id);
    }
  }

  predicate KeepsSession(steps: seq<Step>, session: SessionId) {
    forall step | step in steps :: step.op != DeleteSession(session)
  }

  lemma FinishedRecord(store: Store, step: Step, id: ExecutionId)
    requires id in store.executions && store.executions[id].phase == Finished
    requires step.op != DeleteSession(store.executions[id].session)
    ensures
      var next := Next(store, step);
      id in next.executions && next.executions[id].(updatedAt := 0) == store.executions[id].(updatedAt := 0)
  {
  }

  lemma FinishedOutput(store: Store, step: Step, id: ExecutionId)
    requires id in store.executions && store.executions[id].phase == Finished
    requires step.op != DeleteSession(store.executions[id].session)
    ensures ChunksOf(Next(store, step).output, id) == ChunksOf(store.output, id)
  {
    OutputStep(store, step, id);
    FinishedChunks(store, step, id);
  }

  lemma FinishedChunks(store: Store, step: Step, id: ExecutionId)
    requires id in store.executions && store.executions[id].phase == Finished
    requires step.op != DeleteSession(store.executions[id].session)
    ensures ChunksAfter(store, step, id) == ChunksOf(store.output, id)
  {
    if step.op.AppendOutput? && step.op.id == id && Coalesced(step.op.chunks) == [] {
      assert ChunksOf(store.output, id) + [] == ChunksOf(store.output, id);
    }
  }

  /** Nothing about a finished execution ever changes but the time of its last touch. */
  lemma {:induction false} FinishedFrozen(store: Store, steps: seq<Step>, id: ExecutionId)
    requires id in store.executions && store.executions[id].phase == Finished
    requires KeepsSession(steps, store.executions[id].session)
    ensures
      var after := After(store, steps);
      && id in after.executions && after.executions[id].(updatedAt := 0) == store.executions[id].(updatedAt := 0)
      && ChunksOf(after.output, id) == ChunksOf(store.output, id)
    decreases |steps|
  {
    if steps != [] {
      var front := steps[..|steps| - 1];
      FinishedFrozen(store, front, id);
      assert steps[|steps| - 1] in steps;
      FinishedRecord(After(store, front), steps[|steps| - 1], id);
      FinishedOutput(After(store, front), steps[|steps| - 1], id);
    }
  }

  /** Only a resent image touches a finished execution, and then its elapsed time moves with the clock. */
  lemma FinishedTouch(store: Store, step: Step, id: ExecutionId)
    requires id in store.executions && store.executions[id].phase == Finished
    requires step.op != DeleteSession(store.executions[id].session)
    ensures
      var e := store.executions[id];
      Next(store, step).executions[id].updatedAt != e.updatedAt
      <==> && step.op.AppendImage? && step.op.id == id && step.op.sequence > 0 && ValidImage(step.op.image)
           && Owned(step.caller, e.session).Ok? && FindImage(e.images, step.op.sequence) == Some(step.op.image)
           && step.caller.now != e.updatedAt
  {
  }

  /** A caller on an unclaimed session. */
  function Anyone(now: nat): (r: Caller) {
    Caller(map[], map[], now)
  }

  /** A script that ran, attached an image and completed at time 3. */
  function Ran(id: ExecutionId, session: SessionId, image: Image): (r: seq<Step>) {
    [Step(Anyone(0), Create(id, session)), Step(Anyone(1), MarkRunning(id)), Step(Anyone(2), AppendImage(id, 1, image)),
     Step(Anyone(3), Finish(id, Completion(Completed, None, false, None, [], [])))]
  }

  lemma RanStore(id: ExecutionId, session: SessionId, image: Image)
    requires ValidImage(image)
    ensures After(START, Ran(id, session, image))
         == Store(map[id := Execution(session, [Attachment(1, image)], Finished, Some(Completed), Some(1), 3, None,
                                      false, None)], [])
  {
    var steps := Ran(id, session, image);
    assert steps[..1][..0] == [] && steps[..2][..1] == steps[..1];
    assert steps[..3][..2] == steps[..2] && steps[..4] == steps;
    var e := Execution(session, [], Prepared, None, None, 0, None, false, None);
    var s1 := Store(map[id := e], []);
    var s2 := Store(map[id := e.(phase := Running, startedAt := Some(1), updatedAt := 1)], []);
    var s3 := Store(map[id := e.(phase := Running, startedAt := Some(1), updatedAt := 2,
                                 images := [Attachment(1, image)])], []);
    assert Next(START, steps[0]) == s1;
    assert Next(s1, steps[1]) == s2;
    assert InsertImage([], Attachment(1, image)) == [Attachment(1, image)];
    assert Next(s2, steps[2]) == s3;
    assert Without([], {id}) == [] && RowsFor(id, FinalChunks(steps[3].op.completion)) == [];
    assert After(START, steps[..0]) == START && After(START, steps[..1]) == s1;
    assert After(START, steps[..2]) == s2 && After(START, steps[..3]) == s3;
  }

  function ElapsedMillis(e: Execution): (r: Option<int>) {
    if e.startedAt.None? then None
    else Some(if e.updatedAt < e.startedAt.value then 0 else e.updatedAt - e.startedAt.value)
  }

  /** Resending its image to a finished execution makes it look as if it had run longer. */
  lemma ResentImageMovesTime(id: ExecutionId, session: SessionId, image: Image, now: nat)
    requires ValidImage(image) && now > 3
    ensures
      var store := After(START, Ran(id, session, image));
      var after := Next(store, Step(Anyone(now), AppendImage(id, 1, image)));
      && id in store.executions && store.executions[id].phase == Finished && id in after.executions
      && ElapsedMillis(store.executions[id]) == Some(2) && ElapsedMillis(after.executions[id]) == Some(now - 1)
  {
    RanStore(id, session, image);
  }

  /** Everything successful writes gave to `id` since it was created. */
  ghost function Written(steps: seq<Step>, id: ExecutionId): (r: seq<Chunk>)
    decreases |steps|
  {
    if id !in After(START, steps).executions then [] else
    var front, step := steps[..|steps| - 1], steps[|steps| - 1];
    if step.op.AppendOutput? && step.op.id == id && Apply(After(START, front), step.caller, step.op).Ok?
    then Written(front, id) + step.op.chunks
    else Written(front, id)
  }

  /** A finished execution never becomes unfinished. */
  lemma UnfinishedBefore(store: Store, step: Step, id: ExecutionId)
    requires id in Next(store, step).executions && Next(store, step).executions[id].phase != Finished
    ensures id in store.executions ==> store.executions[id].phase != Finished
  {
  }

  lemma UnfinishedChunks(store: Store, step: Step, id: ExecutionId)
    requires id in Next(store, step).executions && Next(store, step).executions[id].phase != Finished
    ensures ChunksAfter(store, step, id)
         == if step.op.AppendOutput? && step.op.id == id && Apply(store, step.caller, step.op).Ok?
            then ChunksOf(store.output, id) + Coalesced(step.op.chunks)
            else ChunksOf(store.output, id)
  {
  }

  /** A step that leaves an execution unfinished only ever adds to its output. */
  lemma UnfinishedStep(store: Store, step: Step, id: ExecutionId)
    requires id in Next(store, step).executions && Next(store, step).executions[id].phase != Finished
    ensures ChunksOf(Next(store, step).output, id)
         == if step.op.AppendOutput? && step.op.id == id && Apply(store, step.caller, step.op).Ok?
            then ChunksOf(store.output, id) + Coalesced(step.op.chunks)
            else ChunksOf(store.output, id)
  {
    OutputStep(store, step, id);
    UnfinishedChunks(store, step, id);
  }

  lemma WriteAdds(stored: seq<Chunk>, written: seq<Chunk>, chunks: seq<Chunk>, stream: Stream)
    requires StreamOf(stored, stream) == StreamOf(written, stream)
    ensures StreamOf(stored + Coalesced(chunks), stream) == StreamOf(written + chunks, stream)
  {
    CoalescedFaithful(chunks, stream);
    StreamOfConcat(stored, Coalesced(chunks), stream);
    StreamOfConcat(written, chunks, stream);
  }

  /** Until a script finishes, each stream reads as the concatenation of everything written to it. */
  lemma {:induction false} RunningOutput(steps: seq<Step>, id: ExecutionId, stream: Stream)
    requires id in After(START, steps).executions && After(START, steps).executions[id].phase != Finished
    ensures StreamOf(ChunksOf(After(START, steps).output, id), stream) == StreamOf(Written(steps, id), stream)
    decreases |steps|
  {
    var front, step := steps[..|steps| - 1], steps[|steps| - 1];
    var before := After(START, front);
    assert Inv(START);
    InvRun(START, front);
    assert Quiet(before, id);
    UnfinishedBefore(before, step, id);
    UnfinishedStep(before, step, id);
    if id in before.executions {
      RunningOutput(front, id, stream);
    }
    if step.op.AppendOutput? && step.op.id == id && Apply(before, step.caller, step.op).Ok? {
      WriteAdds(ChunksOf(before.output, id), Written(front, id), step.op.chunks, stream);
    }
  }

  /** Once it has finished, each stream reads as the completion gave it, for as long as the session lives. */
  lemma FinalOutput(store: Store, caller: Caller, id: ExecutionId, completion: Completion, later: seq<Step>)
    requires Apply(store, caller, Finish(id, completion)).Ok? && KeepsSession(later, store.executions[id].session)
    ensures
      var after := After(Next(store, Step(caller, Finish(id, completion))), later);
      && id in after.executions && after.executions[id].status == Some(completion.status)
      && StreamOf(ChunksOf(after.output, id), Stdout) == completion.stdout
      && StreamOf(ChunksOf(after.output, id), Stderr) == completion.stderr
  {
    var step := Step(caller, Finish(id, completion));
    OutputStep(store, step, id);
    FinishedFrozen(Next(store, step), later, id);
    FinalStreams(completion, Stdout);
    FinalStreams(completion, Stderr);
  }

  lemma FinalStreams(completion: Completion, s: Stream)
    ensures StreamOf(FinalChunks(completion), s) == if s == Stdout then completion.stdout else completion.stderr
  {
    var out, err := Chunk(Stdout, completion.stdout), Chunk(Stderr, completion.stderr);
    StreamOfConcat(NonEmpty(out), NonEmpty(err), s);
    assert StreamOf([], s) == [];
    assert StreamOf([out], s) == StreamOf([], s) + (if s == Stdout then out.bytes else []);
    assert StreamOf([err], s) == StreamOf([], s) + (if s == Stderr then err.bytes else []);
  }
}
