/**
 * The per-session context document: an append-only list of pin events, the file
 * snapshots last shown to the model, and the rule that a refresh may store its
 * snapshots only if no event arrived while it was reading files.
 */
module ContextDocument {
  import opened Types

  datatype Mutation = PinFile(path: string, scope: string) | UnpinFile(path: string)

  datatype Source =
    | Command(execution: string, sequence: nat, invocation: string)
    | Component(name: string)

  datatype Event = Event(id: string, source: Source, mutations: seq<Mutation>)

  datatype PinnedFile = PinnedFile(path: string, scope: string, openedBy: string)

  datatype FileSnapshot = FileSnapshot(path: string, openedBy: string, anchor: MessageId, text: string)

  datatype InstructionSnapshot = InstructionSnapshot(key: string, title: string, anchor: Option<MessageId>,
                                                     text: string)

  datatype Document = Document(
    events: seq<Event>,
    snapshots: seq<FileSnapshot>,
    instructions: seq<InstructionSnapshot>)

  const NO_DOCUMENT: Document := Document([], [], [])

  /** The fold of pin events. */

  function Position(pins: seq<PinnedFile>, path: string): (r: Option<nat>)
    ensures r.Some? ==> r.value < |pins| && pins[r.value].path == path
    ensures r.None? ==> forall p | p in pins :: p.path != path
  {
    if pins == [] then None
    else if pins[0].path == path then Some(0)
    else match Position(pins[1..], path) case Some(i) => Some(i + 1) case None => None
  }

  function Without(pins: seq<PinnedFile>, path: string): (r: seq<PinnedFile>)
    ensures forall p :: p in r <==> p in pins && p.path != path
  {
    if pins == [] then []
    else (if pins[0].path != path then [pins[0]] else []) + Without(pins[1..], path)
  }

  /** `ContextState::apply`: pinning a pinned file only changes its scope. */
  function ApplyMutation(pins: seq<PinnedFile>, event: string, mutation: Mutation): (r: seq<PinnedFile>) {
    match mutation
    case PinFile(path, scope) =>
      (match Position(pins, path)
       case Some(i) => pins[i := pins[i].(scope := scope)]
       case None => pins + [PinnedFile(path, scope, event)])
    case UnpinFile(path) => Without(pins, path)
  }

  function ApplyMutations(pins: seq<PinnedFile>, event: string, mutations: seq<Mutation>): (r: seq<PinnedFile>)
    decreases |mutations|
  {
    if mutations == [] then pins else ApplyMutations(ApplyMutation(pins, event, mutations[0]), event, mutations[1..])
  }

  function Pinned(events: seq<Event>): (r: seq<PinnedFile>)
    decreases |events|
  {
    if events == [] then []
    else ApplyMutations(Pinned(events[..|events| - 1]), events[|events| - 1].id, events[|events| - 1].mutations)
  }

  predicate DistinctPaths(pins: seq<PinnedFile>) {
    forall i, j | 0 <= i < j < |pins| :: pins[i].path != pins[j].path
  }

  /** `path` is pinned since the event `openedBy`. */
  predicate OpenSince(pins: seq<PinnedFile>, path: string, openedBy: string) {
    exists p | p in pins :: p.path == path && p.openedBy == openedBy
  }

  lemma {:induction false} WithoutDistinct(pins: seq<PinnedFile>, path: string)
    requires DistinctPaths(pins)
    ensures DistinctPaths(Without(pins, path))
  {
    if pins != [] {
      WithoutDistinct(pins[1..], path);
      var rest := Without(pins[1..], path);
      assert forall p | p in rest :: p in pins[1..];
      if pins[0].path != path {
        assert forall j | 0 <= j < |rest| :: rest[j] in rest;
      }
    }
  }

  lemma MutationKeeps(pins: seq<PinnedFile>, event: string, mutation: Mutation, path: string, openedBy: string)
    requires DistinctPaths(pins)
    ensures DistinctPaths(ApplyMutation(pins, event, mutation))
    ensures OpenSince(pins, path, openedBy) && mutation != UnpinFile(path) ==>
              OpenSince(ApplyMutation(pins, event, mutation), path, openedBy)
  {
    match mutation
    case UnpinFile(gone) =>
      WithoutDistinct(pins, gone);
      if p :| p in pins && p.path == path && p.openedBy == openedBy {
        assert path != gone ==> p in Without(pins, gone);
      }
    case PinFile(pinned, scope) =>
      var r := ApplyMutation(pins, event, mutation);
      if i :| 0 <= i < |pins| && pins[i].path == path && pins[i].openedBy == openedBy {
        assert r[i] in r && r[i].path == path && r[i].openedBy == openedBy;
      }
  }

  lemma {:induction false} MutationsKeep(pins: seq<PinnedFile>, event: string, mutations: seq<Mutation>, path: string,
                                         openedBy: string)
    requires DistinctPaths(pins)
    ensures DistinctPaths(ApplyMutations(pins, event, mutations))
    ensures OpenSince(pins, path, openedBy) && UnpinFile(path) !in mutations ==>
              OpenSince(ApplyMutations(pins, event, mutations), path, openedBy)
    decreases |mutations|
  {
    if mutations != [] {
      MutationKeeps(pins, event, mutations[0], path, openedBy);
      MutationsKeep(ApplyMutation(pins, event, mutations[0]), event, mutations[1..], path, openedBy);
    }
  }

  lemma {:induction false} PinnedDistinct(events: seq<Event>)
    ensures DistinctPaths(Pinned(events))
    decreases |events|
  {
    if events != [] {
      PinnedDistinct(events[..|events| - 1]);
      MutationsKeep(Pinned(events[..|events| - 1]), events[|events| - 1].id, events[|events| - 1].mutations, "", "");
    }
  }

  lemma {:induction false} WithoutNone(pins: seq<PinnedFile>, path: string)
    requires forall p | p in pins :: p.path != path
    ensures Without(pins, path) == pins
  {
    if pins != [] {
      assert pins[0] in pins && pins == [pins[0]] + pins[1..];
      WithoutNone(pins[1..], path);
    }
  }

  lemma SpliceTail<T>(s: seq<T>, k: nat)
    requires 0 < k < |s|
    ensures s[..k] + s[k + 1..] == [s[0]] + (s[1..][..k - 1] + s[1..][k..])
  {
  }

  lemma {:induction false} WithoutAt(pins: seq<PinnedFile>, path: string, k: nat)
    requires DistinctPaths(pins) && k < |pins| && pins[k].path == path
    ensures Without(pins, path) == pins[..k] + pins[k + 1..]
  {
    if k == 0 {
      WithoutNone(pins[1..], path);
      assert pins[..0] + pins[1..] == pins[1..];
    } else {
      WithoutAt(pins[1..], path, k - 1);
      SpliceTail(pins, k);
    }
  }

  lemma PositionExact(pins: seq<PinnedFile>, path: string, k: nat)
    requires DistinctPaths(pins) && k < |pins| && pins[k].path == path
    ensures Position(pins, path) == Some(k)
  {
    assert pins[k] in pins;
  }

  /** `path` is pinned at place `k`, or not at all if `k` is the end. */
  predicate PinnedAt(pins: seq<PinnedFile>, path: string, k: nat) {
    k <= |pins| && if k < |pins| then pins[k].path == path else forall p | p in pins :: p.path != path
  }

  /**
   * One mutation, exactly: a new file goes behind the others, a pinned one only gets the new scope, and
   * unpinning takes out that one file.
   */
  lemma MutationExact(pins: seq<PinnedFile>, event: string, mutation: Mutation, k: nat)
    requires DistinctPaths(pins) && PinnedAt(pins, mutation.path, k)
    ensures
      var r := ApplyMutation(pins, event, mutation);
      match mutation
      case PinFile(path, scope) =>
        r == if k < |pins| then pins[k := PinnedFile(path, scope, pins[k].openedBy)]
             else pins + [PinnedFile(path, scope, event)]
      case UnpinFile(_) => r == if k < |pins| then pins[..k] + pins[k + 1..] else pins
  {
    if k < |pins| {
      PositionExact(pins, mutation.path, k);
      WithoutAt(pins, mutation.path, k);
    } else {
      WithoutNone(pins, mutation.path);
    }
  }

  /** One file on its own: its scope, and the event since which it has been pinned. */
  datatype Pin = Pin(scope: string, openedBy: string)

  function Track(pin: Option<Pin>, event: string, mutation: Mutation, path: string): (r: Option<Pin>) {
    if mutation.path != path then pin
    else if mutation.UnpinFile? then None
    else Some(Pin(mutation.scope, if pin.Some? then pin.value.openedBy else event))
  }

  function TrackAll(pin: Option<Pin>, event: string, mutations: seq<Mutation>, path: string): (r: Option<Pin>)
    decreases |mutations|
  {
    if mutations == [] then pin else TrackAll(Track(pin, event, mutations[0], path), event, mutations[1..], path)
  }

  function TrackEvents(events: seq<Event>, path: string): (r: Option<Pin>)
    decreases |events|
  {
    if events == [] then None
    else TrackAll(TrackEvents(events[..|events| - 1], path), events[|events| - 1].id,
                  events[|events| - 1].mutations, path)
  }

  function PinOf(pins: seq<PinnedFile>, path: string): (r: Option<Pin>) {
    match Position(pins, path) case Some(i) => Some(Pin(pins[i].scope, pins[i].openedBy)) case None => None
  }

  lemma PinAt(pins: seq<PinnedFile>, path: string, k: nat)
    requires DistinctPaths(pins) && PinnedAt(pins, path, k)
    ensures PinOf(pins, path) == if k < |pins| then Some(Pin(pins[k].scope, pins[k].openedBy)) else None
  {
    if k < |pins| {
      PositionExact(pins, path, k);
    }
  }

  lemma PinPlace(pins: seq<PinnedFile>, path: string) returns (k: nat)
    ensures PinnedAt(pins, path, k)
  {
    k := match Position(pins, path) case Some(i) => i case None => |pins|;
  }

  lemma TrackPin(pins: seq<PinnedFile>, event: string, mutation: Mutation, path: string, k: nat, r: seq<PinnedFile>)
    requires DistinctPaths(pins) && PinnedAt(pins, mutation.path, k) && mutation.PinFile? && DistinctPaths(r)
    requires r == if k < |pins| then pins[k := PinnedFile(mutation.path, mutation.scope, pins[k].openedBy)]
                  else pins + [PinnedFile(mutation.path, mutation.scope, event)]
    ensures PinOf(r, path) == Track(PinOf(pins, path), event, mutation, path)
  {
    var j := PinPlace(pins, path);
    PinAt(pins, path, j);
    PinAt(pins, mutation.path, k);
    if path == mutation.path {
      PinAt(r, path, k);
    } else if j < |pins| {
      PinAt(r, path, j);
    } else {
      PinAt(r, path, |r|);
    }
  }

  lemma TrackUnpin(pins: seq<PinnedFile>, event: string, mutation: Mutation, path: string, r: seq<PinnedFile>)
    requires DistinctPaths(pins) && mutation.UnpinFile? && DistinctPaths(r)
    requires forall p :: p in r <==> p in pins && p.path != mutation.path
    ensures PinOf(r, path) == Track(PinOf(pins, path), event, mutation, path)
  {
    var j := PinPlace(pins, path);
    PinAt(pins, path, j);
    if j < |pins| && path != mutation.path {
      assert pins[j] in r;
      var i :| 0 <= i < |r| && r[i] == pins[j];
      PinAt(r, path, i);
    } else {
      PinAt(r, path, |r|);
    }
  }

  lemma TrackOne(pins: seq<PinnedFile>, event: string, mutation: Mutation, path: string)
    requires DistinctPaths(pins)
    ensures PinOf(ApplyMutation(pins, event, mutation), path) == Track(PinOf(pins, path), event, mutation, path)
    ensures DistinctPaths(ApplyMutation(pins, event, mutation))
  {
    var r := ApplyMutation(pins, event, mutation);
    MutationKeeps(pins, event, mutation, "", "");
    if mutation.PinFile? {
      var k := PinPlace(pins, mutation.path);
      MutationExact(pins, event, mutation, k);
      TrackPin(pins, event, mutation, path, k, r);
    } else {
      TrackUnpin(pins, event, mutation, path, r);
    }
  }

  lemma {:induction false} TracksAll(pins: seq<PinnedFile>, event: string, mutations: seq<Mutation>, path: string)
    requires DistinctPaths(pins)
    ensures PinOf(ApplyMutations(pins, event, mutations), path) == TrackAll(PinOf(pins, path), event, mutations, path)
    decreases |mutations|
  {
    if mutations != [] {
      TrackOne(pins, event, mutations[0], path);
      TracksAll(ApplyMutation(pins, event, mutations[0]), event, mutations[1..], path);
    }
  }

  /** The fold of all events is, for each file, what happened to that file alone. */
  lemma {:induction false} PinnedTracks(events: seq<Event>, path: string)
    ensures PinOf(Pinned(events), path) == TrackEvents(events, path)
    decreases |events|
  {
    if events != [] {
      var front, last := events[..|events| - 1], events[|events| - 1];
      PinnedTracks(front, path);
      PinnedDistinct(front);
      TracksAll(Pinned(front), last.id, last.mutations, path);
    }
  }

  /** Changing a document. */

  /** Snapshots of files an event closes are dropped. */
  function StillOpen(snapshots: seq<FileSnapshot>, mutations: seq<Mutation>): (r: seq<FileSnapshot>)
    ensures forall f :: f in r <==> f in snapshots && UnpinFile(f.path) !in mutations
  {
    if snapshots == [] then []
    else (if UnpinFile(snapshots[0].path) in mutations then [] else [snapshots[0]])
         + StillOpen(snapshots[1..], mutations)
  }

  lemma {:induction false} StillOpenAppend(snapshots: seq<FileSnapshot>, last: FileSnapshot, mutations: seq<Mutation>)
    ensures StillOpen(snapshots + [last], mutations)
         == StillOpen(snapshots, mutations) + (if UnpinFile(last.path) !in mutations then [last] else [])
  {
    if snapshots != [] {
      assert (snapshots + [last])[1..] == snapshots[1..] + [last];
      StillOpenAppend(snapshots[1..], last, mutations);
    }
  }

  predicate DistinctSnapshots(snapshots: seq<FileSnapshot>) {
    forall i, j | 0 <= i < j < |snapshots| :: snapshots[i].path != snapshots[j].path
  }

  function PushEvent(doc: Document, event: Event): (r: Document) {
    doc.(snapshots := StillOpen(doc.snapshots, event.mutations), events := doc.events + [event])
  }

  predicate SameEffect(a: Source, b: Source) {
    a.Command? && b.Command? && a.execution == b.execution && (a.sequence == b.sequence || a.invocation == b.invocation)
  }

  function AppendEvent(doc: Document, source: Source, mutations: seq<Mutation>, id: string): (r: Option<Document>) {
    if mutations == [] || exists e | e in doc.events :: SameEffect(e.source, source) then None
    else Some(PushEvent(doc, Event(id, source, mutations)))
  }

  function LastEvent(events: seq<Event>): (r: Option<string>) {
    if events == [] then None else Some(events[|events| - 1].id)
  }

  /** What a refresh wants to store, and the last event it had seen. */
  datatype Refresh = Refresh(through: Option<string>, snapshots: seq<FileSnapshot>, removals: seq<Mutation>)

  function SaveSnapshots(doc: Document, refresh: Refresh, id: string): (r: Option<Document>) {
    if LastEvent(doc.events) != refresh.through then None
    else if doc.snapshots == refresh.snapshots && refresh.removals == [] then Some(doc)
    else
      var stored := doc.(snapshots := refresh.snapshots);
      Some(if refresh.removals == [] then stored
           else PushEvent(stored, Event(id, Component("file-context-refresh"), refresh.removals)))
  }

  /** The store that holds the document and edits it in place. */
  class ContextStore {
    var document: Document

    constructor ()
      ensures document == NO_DOCUMENT
    {
      document := NO_DOCUMENT;
    }

    method Push(event: Event)
      modifies this
      ensures document == PushEvent(old(document), event)
    {
      var kept: seq<FileSnapshot> := [];
      for i := 0 to |document.snapshots|
        invariant document == old(document)
        invariant kept == StillOpen(document.snapshots[..i], event.mutations)
      {
        var snapshot := document.snapshots[i];
        StillOpenAppend(document.snapshots[..i], snapshot, event.mutations);
        assert document.snapshots[..i + 1] == document.snapshots[..i] + [snapshot];
        if UnpinFile(snapshot.path) !in event.mutations {
          kept := kept + [snapshot];
        }
      }
      assert document.snapshots[..|document.snapshots|] == document.snapshots;
      document := document.(snapshots := kept, events := document.events + [event]);
    }

    method Append(source: Source, mutations: seq<Mutation>, id: string) returns (ok: bool)
      modifies this
      ensures match AppendEvent(old(document), source, mutations, id)
              case Some(doc) => ok && document == doc
              case None => !ok && document == old(document)
      ensures ok <==>
                && mutations != []
                && forall e | e in old(document).events && e.source.Command? && source.Command?
                              && e.source.execution == source.execution ::
                     e.source.sequence != source.sequence && e.source.invocation != source.invocation
      ensures ok ==>
                && document.events == old(document).events + [Event(id, source, mutations)]
                && document.instructions == old(document).instructions
                && forall f :: f in document.snapshots <==>
                     f in old(document).snapshots && UnpinFile(f.path) !in mutations
    {
      if mutations == [] {
        return false;
      }
      for i := 0 to |document.events|
        invariant document == old(document)
        invariant forall k | 0 <= k < i :: !SameEffect(document.events[k].source, source)
      {
        if SameEffect(document.events[i].source, source) {
          return false;
        }
      }
      Push(Event(id, source, mutations));
      ok := true;
    }

    method Save(refresh: Refresh, id: string) returns (ok: bool)
      modifies this
      ensures match SaveSnapshots(old(document), refresh, id)
              case Some(doc) => ok && document == doc
              case None => !ok && document == old(document)
      ensures ok <==>
                if old(document).events == [] then refresh.through.None?
                else refresh.through == Some(old(document).events[|old(document).events| - 1].id)
      ensures ok ==>
                && document.instructions == old(document).instructions
                && (forall f :: f in document.snapshots <==>
                      f in refresh.snapshots && UnpinFile(f.path) !in refresh.removals)
                && if refresh.removals == []
                   then document.events == old(document).events && document.snapshots == refresh.snapshots
                   else document.events == old(document).events +
                                           [Event(id, Component("file-context-refresh"), refresh.removals)]
    {
      if LastEvent(document.events) != refresh.through {
        return false;
      }
      ok := true;
      if document.snapshots == refresh.snapshots && refresh.removals == [] {
        return;
      }
      document := document.(snapshots := refresh.snapshots);
      if refresh.removals != [] {
        Push(Event(id, Component("file-context-refresh"), refresh.removals));
      }
    }
  }

  /** What a refresh may compute from the events it loaded: pinned files only, each once, none it removes. */
  ghost predicate ComputedFrom(events: seq<Event>, snapshots: seq<FileSnapshot>, removals: seq<Mutation>) {
    && (forall f | f in snapshots :: OpenSince(Pinned(events), f.path, f.openedBy) && UnpinFile(f.path) !in removals)
    && DistinctSnapshots(snapshots)
  }

  /** One session's document, the refreshes on their way, and (as history) the events each id was the last of. */
  datatype World = World(doc: Document, refreshes: set<Refresh>, prefixes: map<string, seq<Event>>)

  datatype Step =
    | AppendStep(source: Source, mutations: seq<Mutation>, id: string)
    | LoadStep(snapshots: seq<FileSnapshot>, removals: seq<Mutation>)
    | SaveStep(refresh: Refresh, id: string)
    | InstructionsStep(instructions: seq<InstructionSnapshot>)
    | DeleteStep

  /** Event ids are never reused, and a refresh stores what it computed. */
  ghost predicate Enabled(w: World, step: Step) {
    match step
    case AppendStep(_, _, id) => id !in w.prefixes
    case LoadStep(snapshots, removals) => ComputedFrom(w.doc.events, snapshots, removals)
    case SaveStep(refresh, id) => refresh in w.refreshes && id !in w.prefixes
    case InstructionsStep(_) => true
    case DeleteStep => true
  }

  function Changed(w: World, doc: Document, id: string): (r: World) {
    if |doc.events| > |w.doc.events| then w.(doc := doc, prefixes := w.prefixes[id := doc.events]) else w.(doc := doc)
  }

  function Next(w: World, step: Step): (r: World) {
    match step
    case AppendStep(source, mutations, id) =>
      (match AppendEvent(w.doc, source, mutations, id) case Some(doc) => Changed(w, doc, id) case None => w)
    case LoadStep(snapshots, removals) =>
      w.(refreshes := w.refreshes + {Refresh(LastEvent(w.doc.events), snapshots, removals)})
    case SaveStep(refresh, id) =>
      (match SaveSnapshots(w.doc, refresh, id) case Some(doc) => Changed(w, doc, id) case None => w)
    case InstructionsStep(instructions) => w.(doc := w.doc.(instructions := instructions))
    case DeleteStep => w.(doc := NO_DOCUMENT)
  }

  /** Each stored snapshot is of a pinned file, since the event that opened it, and no file appears twice. */
  ghost predicate SnapshotsFollowPins(doc: Document) {
    ComputedFrom(doc.events, doc.snapshots, [])
  }

  ghost predicate EffectsOnce(events: seq<Event>) {
    forall i, j | 0 <= i < j < |events| :: !SameEffect(events[i].source, events[j].source)
  }

  /** Event ids identify the list of events up to them. */
  ghost predicate IdsNamePrefixes(w: World) {
    && (forall i | 0 <= i < |w.doc.events| ::
          w.doc.events[i].id in w.prefixes && w.prefixes[w.doc.events[i].id] == w.doc.events[..i + 1])
    && (forall r | r in w.refreshes ::
          if r.through.None? then ComputedFrom([], r.snapshots, r.removals)
          else r.through.value in w.prefixes && ComputedFrom(w.prefixes[r.through.value], r.snapshots, r.removals))
  }

  ghost predicate Inv(w: World) {
    SnapshotsFollowPins(w.doc) && EffectsOnce(w.doc.events) && IdsNamePrefixes(w)
  }

  lemma {:induction false} StillOpenDistinct(snapshots: seq<FileSnapshot>, mutations: seq<Mutation>)
    requires DistinctSnapshots(snapshots)
    ensures DistinctSnapshots(StillOpen(snapshots, mutations))
  {
    if snapshots != [] {
      StillOpenDistinct(snapshots[1..], mutations);
      var rest := StillOpen(snapshots[1..], mutations);
      forall j | 0 <= j < |rest|
        ensures rest[j].path != snapshots[0].path
      {
        assert rest[j] in rest;
      }
    }
  }

  lemma PushKeepsSnapshots(doc: Document, event: Event)
    requires SnapshotsFollowPins(doc)
    ensures SnapshotsFollowPins(PushEvent(doc, event))
  {
    var doc' := PushEvent(doc, event);
    assert doc'.events[..|doc'.events| - 1] == doc.events;
    StillOpenDistinct(doc.snapshots, event.mutations);
    PinnedDistinct(doc.events);
    forall f | f in doc'.snapshots
      ensures OpenSince(Pinned(doc'.events), f.path, f.openedBy)
    {
      MutationsKeep(Pinned(doc.events), event.id, event.mutations, f.path, f.openedBy);
    }
  }

  lemma PushKeepsIds(w: World, doc: Document, event: Event)
    requires IdsNamePrefixes(w) && event.id !in w.prefixes && doc.events == w.doc.events + [event]
    ensures IdsNamePrefixes(Changed(w, doc, event.id))
  {
    var w' := Changed(w, doc, event.id);
    forall i | 0 <= i < |doc.events|
      ensures doc.events[i].id in w'.prefixes && w'.prefixes[doc.events[i].id] == doc.events[..i + 1]
    {
      if i < |w.doc.events| {
        assert doc.events[..i + 1] == w.doc.events[..i + 1];
      }
    }
  }

  lemma SaveKeepsInv(w: World, refresh: Refresh, id: string)
    requires Inv(w) && Enabled(w, SaveStep(refresh, id))
    ensures Inv(Next(w, SaveStep(refresh, id)))
  {
    if LastEvent(w.doc.events) == refresh.through && !(w.doc.snapshots == refresh.snapshots && refresh.removals == []) {
      if w.doc.events != [] {
        assert w.doc.events[..|w.doc.events|] == w.doc.events;
      }
      var stored := w.doc.(snapshots := refresh.snapshots);
      assert SnapshotsFollowPins(stored);
      if refresh.removals != [] {
        var event := Event(id, Component("file-context-refresh"), refresh.removals);
        PushKeepsSnapshots(stored, event);
        PushKeepsIds(w, PushEvent(stored, event), event);
      }
    }
  }

  lemma InvStep(w: World, step: Step)
    requires Inv(w) && Enabled(w, step)
    ensures Inv(Next(w, step))
  {
    match step
    case AppendStep(source, mutations, id) =>
      if AppendEvent(w.doc, source, mutations, id).Some? {
        var event := Event(id, source, mutations);
        PushKeepsSnapshots(w.doc, event);
        PushKeepsIds(w, PushEvent(w.doc, event), event);
      }
    case LoadStep(snapshots, removals) =>
      if w.doc.events != [] {
        assert w.doc.events[..|w.doc.events|] == w.doc.events;
      }
    case SaveStep(refresh, id) => SaveKeepsInv(w, refresh, id);
    case InstructionsStep(_) =>
    case DeleteStep =>
  }

  ghost predicate Valid(w: World, steps: seq<Step>)
    decreases |steps|
  {
    steps == [] || (Enabled(w, steps[0]) && Valid(Next(w, steps[0]), steps[1..]))
  }

  function After(w: World, steps: seq<Step>): (r: World)
    decreases |steps|
  {
    if steps == [] then w else After(Next(w, steps[0]), steps[1..])
  }

  lemma {:induction false} InvRun(w: World, steps: seq<Step>)
    requires Inv(w) && Valid(w, steps)
    ensures Inv(After(w, steps))
    decreases |steps|
  {
    if steps != [] {
      InvStep(w, steps[0]);
      InvRun(Next(w, steps[0]), steps[1..]);
    }
  }

  /**
   * In every document a run can reach, with refreshes and events interleaved in any way and the
   * document deleted in between, each snapshot is of a distinct file that the events have pinned
   * with the same opening event, and no two command events repeat an effect.
   */
  lemma DocumentInvariant(steps: seq<Step>)
    requires Valid(World(NO_DOCUMENT, {}, map[]), steps)
    ensures
      var doc := After(World(NO_DOCUMENT, {}, map[]), steps).doc;
      && DistinctSnapshots(doc.snapshots)
      && (forall f | f in doc.snapshots :: OpenSince(Pinned(doc.events), f.path, f.openedBy))
      && EffectsOnce(doc.events)
  {
    InvRun(World(NO_DOCUMENT, {}, map[]), steps);
  }
}
