/** Values shared by every part of the model: identifiers, messages and failures. */
module Types {

  const I64_MAX: nat := 0x7FFF_FFFF_FFFF_FFFF
  const U64_MAX: nat := 0xFFFF_FFFF_FFFF_FFFF
  const USIZE_MAX: nat := U64_MAX

  const MAX_REQUEST_IMAGE_BYTES: nat := 33554432

  datatype Option<+T> = None | Some(value: T)

  datatype Result<+T, +E> = Ok(value: T) | Err(error: E) {
    predicate IsFailure() {
      Err?
    }

    function PropagateFailure<U>(): (r: Result<U, E>)
      requires Err?
    {
      Err(error)
    }

    function Extract(): T
      requires Ok?
    {
      value
    }
  }

  datatype MessageId = MessageId(name: string)
  datatype SessionId = SessionId(name: string)

  datatype Phase = Commentary | FinalAnswer

  datatype AssistantItem =
    | Reasoning(payload: string)
    | Text(phase: Phase, text: string)
    | ScriptCall(callId: string, input: string)

  datatype Image = Image(id: string, byteLength: nat)

  datatype ContentPart = TextPart(text: string) | ImagePart(image: Image)

  datatype ConversationItem =
    | FileContext(text: string)
    | Compaction(payload: string)
    | System(text: string)
    | User(content: seq<ContentPart>)
    | Assistant(items: seq<AssistantItem>)
    | ScriptResult(callId: string, output: seq<ContentPart>, outcome: string)

  datatype Status = Complete | Streaming(streamId: string) | Cancelled

  datatype Generation = Generation(model: string, usage: Option<string>)

  datatype Message = Message(
    id: MessageId,
    parent: Option<MessageId>,
    content: ConversationItem,
    status: Status,
    profile: Option<string>,
    generation: Option<Generation>)

  /** Why an operation was refused. */
  datatype Error =
    | SessionNotFound
    | AlreadyRunning
    | ZeroLease
    | ExpiryOverflow
    | NotOwnedHere
    | OwnershipLost
    | OwnedByAnother
    | OwnedSessionDeleted
    | MetadataChanged
    | MissingMessage(id: MessageId)
    | ParentCycle(id: MessageId)
    | BadDelta
    | SequenceTooLarge
    | IdReused
    | UnlinkedMessage
    | TipChanged
    | NothingToAppend
    | ContentMismatch
    | DurableParentMismatch
}
