/**
 * Assembling the message list of a request: system prefix, checkpoint, context
 * without a place in the conversation, then the history with each file or
 * instruction right behind the message it is anchored to.
 */
module Assembly {
  import opened Types
  import opened ContextDocument

  datatype Context = Context(snapshots: seq<FileSnapshot>, instructions: seq<InstructionSnapshot>)

  /** A text and the message it follows, if any. */
  datatype Placed = Placed(anchor: Option<MessageId>, text: string)

  function PlacedInstructions(instructions: seq<InstructionSnapshot>): (r: seq<Placed>)
    ensures |r| == |instructions|
  {
    seq(|instructions|, i requires 0 <= i < |instructions| => Placed(instructions[i].anchor, instructions[i].text))
  }

  function PlacedFiles(snapshots: seq<FileSnapshot>): (r: seq<Placed>)
    ensures |r| == |snapshots|
  {
    seq(|snapshots|, i requires 0 <= i < |snapshots| => Placed(Some(snapshots[i].anchor), snapshots[i].text))
  }

  function Placements(context: Context): (r: seq<Placed>) {
    PlacedInstructions(context.instructions) + PlacedFiles(context.snapshots)
  }

  function Ids(history: seq<Message>): (r: set<MessageId>) {
    set m | m in history :: m.id
  }

  predicate IsLoose(p: Placed, retained: set<MessageId>) {
    p.anchor.None? || p.anchor.value !in retained
  }

  /** Texts anchored to `id`, in order. */
  function AtAnchor(placed: seq<Placed>, id: MessageId): (r: seq<ConversationItem>)
    decreases |placed|
  {
    if placed == [] then [] else
    var last := placed[|placed| - 1];
    AtAnchor(placed[..|placed| - 1], id) + (if last.anchor == Some(id) then [FileContext(last.text)] else [])
  }

  /** Texts without a retained anchor, in order. */
  function Loose(placed: seq<Placed>, retained: set<MessageId>): (r: seq<ConversationItem>)
    decreases |placed|
  {
    if placed == [] then [] else
    var last := placed[|placed| - 1];
    Loose(placed[..|placed| - 1], retained) + (if IsLoose(last, retained) then [FileContext(last.text)] else [])
  }

  /** What one history message contributes. */
  function Block(placed: seq<Placed>, message: Message, served: set<MessageId>): (r: seq<ConversationItem>) {
    [message.content] + (if message.id in served then [] else AtAnchor(placed, message.id))
  }

  /** The history with anchored texts behind their messages; only the first message of an id gets them. */
  function Body(placed: seq<Placed>, history: seq<Message>, served: set<MessageId>): (r: seq<ConversationItem>)
    decreases |history|
  {
    if history == [] then [] else
    var m := history[0];
    Block(placed, m, served) + Body(placed, history[1..], served + {m.id})
  }

  function Assembled(prefix: string, replacement: seq<ConversationItem>, placed: seq<Placed>, history: seq<Message>)
    : (r: seq<ConversationItem>)
  {
    [System(prefix)] + replacement + Loose(placed, Ids(history)) + Body(placed, history, {})
  }

  type Anchored = map<MessageId, seq<ConversationItem>>

  function Waiting(anchored: Anchored, id: MessageId): (r: seq<ConversationItem>) {
    if id in anchored then anchored[id] else []
  }

  /** The map built so far holds exactly the anchored texts of the placements seen. */
  ghost predicate Collected(anchored: Anchored, placed: seq<Placed>, retained: set<MessageId>) {
    forall id | id in retained :: Waiting(anchored, id) == AtAnchor(placed, id)
  }

  /** One placement: to the front, or onto the list of its anchor. */
  method Place(messages: seq<ConversationItem>, anchored: Anchored, p: Placed, retained: set<MessageId>,
               ghost head: seq<ConversationItem>, ghost seen: seq<Placed>)
    returns (messages': seq<ConversationItem>, anchored': Anchored)
    requires messages == head + Loose(seen, retained) && Collected(anchored, seen, retained)
    ensures messages' == head + Loose(seen + [p], retained)
    ensures Collected(anchored', seen + [p], retained)
  {
    assert (seen + [p])[..|seen|] == seen;
    messages', anchored' := messages, anchored;
    if p.anchor.Some? && p.anchor.value in retained {
      anchored' := anchored[p.anchor.value := Waiting(anchored, p.anchor.value) + [FileContext(p.text)]];
    } else {
      messages' := messages + [FileContext(p.text)];
    }
  }

  lemma IdsSplit(a: seq<Message>)
    requires a != []
    ensures Ids(a) == {a[0].id} + Ids(a[1..])
  {
    assert forall m :: m in a <==> m == a[0] || m in a[1..];
  }

  lemma {:induction false} BodyConcat(placed: seq<Placed>, a: seq<Message>, b: seq<Message>, served: set<MessageId>)
    ensures Body(placed, a + b, served) == Body(placed, a, served) + Body(placed, b, served + Ids(a))
    decreases |a|
  {
    if a == [] {
      assert a + b == b && served + Ids(a) == served;
    } else {
      var served' := served + {a[0].id};
      assert (a + b)[1..] == a[1..] + b;
      IdsSplit(a);
      assert served' + Ids(a[1..]) == served + Ids(a);
      BodyConcat(placed, a[1..], b, served');
      var block, x, y := Block(placed, a[0], served), Body(placed, a[1..], served'), Body(placed, b, served + Ids(a));
      assert block + (x + y) == (block + x) + y;
    }
  }

  method PlaceInstructions(head: seq<ConversationItem>, instructions: seq<InstructionSnapshot>,
                           retained: set<MessageId>)
    returns (r: seq<ConversationItem>, anchored: Anchored)
    ensures r == head + Loose(PlacedInstructions(instructions), retained)
    ensures Collected(anchored, PlacedInstructions(instructions), retained)
  {
    r, anchored := head, map[];
    ghost var seen, placed := [], PlacedInstructions(instructions);
    for i := 0 to |instructions|
      invariant r == head + Loose(seen, retained) && Collected(anchored, seen, retained)
      invariant seen == placed[..i]
    {
      var p := Placed(instructions[i].anchor, instructions[i].text);
      r, anchored := Place(r, anchored, p, retained, head, seen);
      seen := seen + [p];
    }
    assert seen == placed;
  }

  method PlaceFiles(front: seq<ConversationItem>, waiting: Anchored, snapshots: seq<FileSnapshot>,
                    retained: set<MessageId>,
                    ghost head: seq<ConversationItem>, ghost before: seq<Placed>)
    returns (r: seq<ConversationItem>, anchored: Anchored)
    requires front == head + Loose(before, retained) && Collected(waiting, before, retained)
    ensures r == head + Loose(before + PlacedFiles(snapshots), retained)
    ensures Collected(anchored, before + PlacedFiles(snapshots), retained)
  {
    r, anchored := front, waiting;
    ghost var seen, files := before, PlacedFiles(snapshots);
    for i := 0 to |snapshots|
      invariant r == head + Loose(seen, retained) && Collected(anchored, seen, retained)
      invariant seen == before + files[..i]
    {
      var p := Placed(Some(snapshots[i].anchor), snapshots[i].text);
      r, anchored := Place(r, anchored, p, retained, head, seen);
      seen := seen + [p];
    }
    assert seen == before + files;
  }

  lemma BodyStep(placed: seq<Placed>, history: seq<Message>, i: nat)
    requires i < |history|
    ensures Body(placed, history[..i + 1], {})
            == Body(placed, history[..i], {}) + Block(placed, history[i], Ids(history[..i]))
    ensures Ids(history[..i + 1]) == Ids(history[..i]) + {history[i].id}
  {
    assert history[..i + 1] == history[..i] + [history[i]];
    BodyConcat(placed, history[..i], [history[i]], {});
    assert {} + Ids(history[..i]) == Ids(history[..i]);
    var served := Ids(history[..i]);
    assert Body(placed, [history[i]], served) == Block(placed, history[i], served) by {
      assert Body(placed, [history[i]][1..], served + {history[i].id}) == [];
    }
  }

  /** Each anchor's list is in the map until its message has been served. */
  ghost predicate Unserved(anchored: Anchored, placed: seq<Placed>, retained: set<MessageId>, served: set<MessageId>) {
    forall id | id in retained :: Waiting(anchored, id) == if id in served then [] else AtAnchor(placed, id)
  }

  method Serve(anchored: Anchored, message: Message, ghost placed: seq<Placed>, ghost retained: set<MessageId>,
               ghost served: set<MessageId>)
    returns (block: seq<ConversationItem>, anchored': Anchored)
    requires Unserved(anchored, placed, retained, served) && message.id in retained
    ensures block == Block(placed, message, served)
    ensures Unserved(anchored', placed, retained, served + {message.id})
  {
    assert Waiting(anchored, message.id) == if message.id in served then [] else AtAnchor(placed, message.id);
    block, anchored' := [message.content], anchored;
    if message.id in anchored {
      block := block + anchored[message.id];
      anchored' := anchored - {message.id};
    }
  }

  lemma NothingServed(anchored: Anchored, placed: seq<Placed>, history: seq<Message>)
    requires Collected(anchored, placed, Ids(history))
    ensures Unserved(anchored, placed, Ids(history), {}) && Ids(history[..0]) == {}
            && Body(placed, history[..0], {}) == []
  {
  }

  /** The loop over the history, taking each anchor's list out of the map as it passes. */
  method Interleave(front: seq<ConversationItem>, waiting: Anchored, history: seq<Message>, ghost placed: seq<Placed>)
    returns (r: seq<ConversationItem>)
    requires Collected(waiting, placed, Ids(history))
    ensures r == front + Body(placed, history, {})
  {
    var anchored, added := waiting, [];
    ghost var retained, served := Ids(history), {};
    NothingServed(waiting, placed, history);
    for i := 0 to |history|
      invariant added == Body(placed, history[..i], {}) && served == Ids(history[..i])
      invariant Unserved(anchored, placed, retained, served)
    {
      BodyStep(placed, history, i);
      assert history[i].id in retained;
      var block;
      block, anchored := Serve(anchored, history[i], placed, retained, served);
      added := added + block;
      served := served + {history[i].id};
    }
    assert history[..|history|] == history;
    r := front + added;
  }

  /** `assemble`, before the image limit. */
  method Assemble(prefix: string, context: Context, replacement: seq<ConversationItem>, history: seq<Message>)
    returns (r: seq<ConversationItem>)
    ensures r == Assembled(prefix, replacement, Placements(context), history)
  {
    var anchored;
    var head, retained := [System(prefix)] + replacement, Ids(history);
    r, anchored := PlaceInstructions(head, context.instructions, retained);
    r, anchored := PlaceFiles(r, anchored, context.snapshots, retained, head, PlacedInstructions(context.instructions));
    r := Interleave(r, anchored, history, Placements(context));
  }
}
