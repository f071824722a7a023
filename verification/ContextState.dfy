/**
 * Refreshing what the model sees of pinned files and instruction sections. What
 * did not change keeps the place in the conversation where it was first shown;
 * what is new or changed goes after the latest message.
 */
module ContextState {
  import opened Types
  import opened ContextDocument

  /** What reading a pinned file gives: text to show, or that it must be unpinned. */
  datatype Reading = Shown(text: string) | Gone

  datatype Refreshed = Refreshed(snapshots: seq<FileSnapshot>, removals: seq<Mutation>)

  /** Files that can be shown, in pin order, and the files to unpin. */
  function ReadPins(pins: seq<PinnedFile>, read: PinnedFile -> Reading, anchor: MessageId): (r: Refreshed)
    decreases |pins|
  {
    if pins == [] then Refreshed([], []) else
    var rest := ReadPins(pins[..|pins| - 1], read, anchor);
    var last := pins[|pins| - 1];
    match read(last)
    case Shown(text) => rest.(snapshots := rest.snapshots + [FileSnapshot(last.path, last.openedBy, anchor, text)])
    case Gone => rest.(removals := rest.removals + [UnpinFile(last.path)])
  }

  method RefreshPinnedFiles(events: seq<Event>, read: PinnedFile -> Reading, anchor: MessageId) returns (r: Refreshed)
    ensures r == ReadPins(Pinned(events), read, anchor)
    ensures forall f :: f in r.snapshots <==>
              exists p | p in Pinned(events) ::
                read(p).Shown? && f == FileSnapshot(p.path, p.openedBy, anchor, read(p).text)
    ensures forall m :: m in r.removals <==> exists p | p in Pinned(events) :: read(p).Gone? && m == UnpinFile(p.path)
    ensures |r.snapshots| + |r.removals| == |Pinned(events)|
  {
    var pins: seq<PinnedFile> := [];
    for i := 0 to |events|
      invariant pins == Pinned(events[..i])
    {
      var event := events[i];
      assert events[..i + 1][..i] == events[..i];
      for j := 0 to |event.mutations|
        invariant ApplyMutations(Pinned(events[..i]), event.id, event.mutations)
                  == ApplyMutations(pins, event.id, event.mutations[j..])
      {
        assert event.mutations[j..][1..] == event.mutations[j + 1..];
        pins := ApplyMutation(pins, event.id, event.mutations[j]);
      }
    }
    assert events[..|events|] == events;
    r := Refreshed([], []);
    for i := 0 to |pins|
      invariant r == ReadPins(pins[..i], read, anchor)
    {
      assert pins[..i + 1][..i] == pins[..i];
      match read(pins[i])
      case Shown(text) =>
        r := r.(snapshots := r.snapshots + [FileSnapshot(pins[i].path, pins[i].openedBy, anchor, text)]);
      case Gone =>
        r := r.(removals := r.removals + [UnpinFile(pins[i].path)]);
    }
    assert pins[..|pins|] == pins;
    ReadPinsExact(pins, read, anchor);
  }

  /** Every pinned file is shown as it was read, or unpinned if it is gone; nothing else is. */
  lemma {:induction false} ReadPinsExact(pins: seq<PinnedFile>, read: PinnedFile -> Reading, anchor: MessageId)
    ensures
      var r := ReadPins(pins, read, anchor);
      && (forall f :: f in r.snapshots <==>
            exists p | p in pins :: read(p).Shown? && f == FileSnapshot(p.path, p.openedBy, anchor, read(p).text))
      && (forall m :: m in r.removals <==> exists p | p in pins :: read(p).Gone? && m == UnpinFile(p.path))
      && |r.snapshots| + |r.removals| == |pins|
    decreases |pins|
  {
    if pins != [] {
      var front := pins[..|pins| - 1];
      ReadPinsExact(front, read, anchor);
      assert forall p :: p in pins <==> p in front || p == pins[|pins| - 1];
    }
  }

  /** Where the previous refresh had this exact file, if it had. */
  function LastAt(previous: seq<FileSnapshot>, path: string): (r: Option<nat>)
    ensures r.Some? ==> r.value < |previous| && previous[r.value].path == path
    ensures r.None? ==> forall f | f in previous :: f.path != path
    decreases |previous|
  {
    if previous == [] then None
    else if previous[|previous| - 1].path == path then Some(|previous| - 1)
    else LastAt(previous[..|previous| - 1], path)
  }

  function Unchanged(previous: seq<FileSnapshot>, f: FileSnapshot): (r: Option<nat>)
    ensures r.Some? ==> r.value < |previous| && previous[r.value].path == f.path
                        && previous[r.value].openedBy == f.openedBy && previous[r.value].text == f.text
  {
    match LastAt(previous, f.path)
    case Some(i) => if previous[i].openedBy == f.openedBy && previous[i].text == f.text then Some(i) else None
    case None => None
  }

  function Reanchored(previous: seq<FileSnapshot>, f: FileSnapshot, latest: MessageId, retained: set<MessageId>,
                      compacted: Option<MessageId>): (r: FileSnapshot)
  {
    match Unchanged(previous, f)
    case Some(i) =>
      if previous[i].anchor in retained then f.(anchor := previous[i].anchor)
      else f.(anchor := if compacted.Some? then compacted.value else latest)
    case None => f.(anchor := latest)
  }

  /** The files whose unchanged predecessor stood at position `k`; with no `k`, the others. Order is kept. */
  function Keyed(previous: seq<FileSnapshot>, files: seq<FileSnapshot>, k: Option<nat>): (r: seq<FileSnapshot>)
    ensures forall f :: f in r <==> f in files && Unchanged(previous, f) == k
  {
    if files == [] then []
    else (if Unchanged(previous, files[0]) == k then [files[0]] else []) + Keyed(previous, files[1..], k)
  }

  function KeyedBelow(previous: seq<FileSnapshot>, files: seq<FileSnapshot>, n: nat): (r: seq<FileSnapshot>)
    ensures forall f :: f in r <==> f in files && Unchanged(previous, f).Some? && Unchanged(previous, f).value < n
  {
    if n == 0 then [] else KeyedBelow(previous, files, n - 1) + Keyed(previous, files, Some(n - 1))
  }

  /** The stable sort by previous position: unchanged files in their old order, then the others. */
  function Sorted(previous: seq<FileSnapshot>, files: seq<FileSnapshot>): (r: seq<FileSnapshot>)
    ensures forall f :: f in r <==> f in files
  {
    KeyedBelow(previous, files, |previous|) + Keyed(previous, files, None)
  }

  function ReanchorAll(previous: seq<FileSnapshot>, files: seq<FileSnapshot>, latest: MessageId,
                       retained: set<MessageId>,
                       compacted: Option<MessageId>): (r: seq<FileSnapshot>)
    ensures |r| == |files| && forall i | 0 <= i < |files| ::
              r[i] == Reanchored(previous, files[i], latest, retained, compacted)
  {
    seq(|files|, i requires 0 <= i < |files| => Reanchored(previous, files[i], latest, retained, compacted))
  }

  /** The snapshots a refresh shows and stores. */
  function RefreshFiles(previous: seq<FileSnapshot>, files: seq<FileSnapshot>, latest: MessageId,
                        retained: set<MessageId>,
                        compacted: Option<MessageId>): (r: seq<FileSnapshot>)
  {
    Sorted(previous, ReanchorAll(previous, files, latest, retained, compacted))
  }

  datatype Section = Section(key: string, title: string, text: string)

  function SectionAt(previous: seq<InstructionSnapshot>, key: string): (r: Option<InstructionSnapshot>)
    ensures r.Some? ==> r.value in previous && r.value.key == key
    ensures r.None? ==> forall i | i in previous :: i.key != key
  {
    if previous == [] then None
    else if previous[0].key == key then Some(previous[0])
    else SectionAt(previous[1..], key)
  }

  function RefreshSection(previous: seq<InstructionSnapshot>, section: Section, latest: MessageId,
                          retained: set<MessageId>,
                          firstRequest: bool): (r: InstructionSnapshot)
  {
    var earlier := SectionAt(previous, section.key);
    var anchor :=
      if earlier.Some? && earlier.value.text == section.text then
        if earlier.value.anchor.Some? && earlier.value.anchor.value in retained then earlier.value.anchor else None
      else if earlier.Some? then Some(latest)
      else if firstRequest then None
      else Some(latest);
    InstructionSnapshot(section.key, section.title, anchor, section.text)
  }

  function RefreshInstructions(previous: seq<InstructionSnapshot>, current: seq<Section>, latest: MessageId,
                               retained: set<MessageId>, firstRequest: bool): (r: seq<InstructionSnapshot>)
    ensures |r| == |current|
  {
    seq(|current|,
        i requires 0 <= i < |current| => RefreshSection(previous, current[i], latest, retained, firstRequest))
  }

  /** What a refresh stores is what the document invariant asks of it. */

  ghost predicate ReadFrom(pins: seq<PinnedFile>, r: Refreshed) {
    && (forall f | f in r.snapshots :: OpenSince(pins, f.path, f.openedBy) && UnpinFile(f.path) !in r.removals)
    && (forall m | m in r.removals :: m.UnpinFile? && exists p | p in pins :: p.path == m.path)
    && DistinctSnapshots(r.snapshots)
  }

  /** One more pin, not seen before. */
  lemma ReadOneMore(front: seq<PinnedFile>, last: PinnedFile, before: Refreshed, snapshot: FileSnapshot)
    requires ReadFrom(front, before) && forall p | p in front :: p.path != last.path
    requires snapshot.path == last.path && snapshot.openedBy == last.openedBy
    ensures ReadFrom(front + [last], before.(snapshots := before.snapshots + [snapshot]))
    ensures ReadFrom(front + [last], before.(removals := before.removals + [UnpinFile(last.path)]))
  {
    var pins := front + [last];
    assert forall p :: p in pins <==> p in front || p == last;
    assert forall f | f in before.snapshots :: OpenSince(front, f.path, f.openedBy) && f.path != last.path;
    assert forall m | m in before.removals :: m.path != last.path;
    forall f | f in before.snapshots
      ensures OpenSince(pins, f.path, f.openedBy)
    {
    }
  }

  lemma {:induction false} ReadPinsComputed(pins: seq<PinnedFile>, read: PinnedFile -> Reading, anchor: MessageId)
    requires DistinctPaths(pins)
    ensures ReadFrom(pins, ReadPins(pins, read, anchor))
    decreases |pins|
  {
    if pins != [] {
      var front, last := pins[..|pins| - 1], pins[|pins| - 1];
      ReadPinsComputed(front, read, anchor);
      assert pins == front + [last];
      var text := if read(last).Shown? then read(last).text else "";
      ReadOneMore(front, last, ReadPins(front, read, anchor), FileSnapshot(last.path, last.openedBy, anchor, text));
    }
  }

  lemma {:induction false} KeyedDistinct(previous: seq<FileSnapshot>, files: seq<FileSnapshot>, k: Option<nat>)
    requires DistinctSnapshots(files)
    ensures DistinctSnapshots(Keyed(previous, files, k))
  {
    if files != [] {
      KeyedDistinct(previous, files[1..], k);
      var rest := Keyed(previous, files[1..], k);
      forall j | 0 <= j < |rest|
        ensures rest[j].path != files[0].path
      {
        assert rest[j] in rest;
      }
    }
  }

  /** Files with the same key keep the order they came in: the sort is stable. */
  lemma {:induction false} SortStable(previous: seq<FileSnapshot>, a: seq<FileSnapshot>, b: seq<FileSnapshot>,
                                      k: Option<nat>)
    ensures Keyed(previous, a + b, k) == Keyed(previous, a, k) + Keyed(previous, b, k)
  {
    if a == [] {
      assert a + b == b;
    } else {
      assert (a + b)[1..] == a[1..] + b;
      SortStable(previous, a[1..], b, k);
    }
  }

  /** Two parts of a list of distinct files without a file in common. */
  lemma JoinDistinct(files: seq<FileSnapshot>, a: seq<FileSnapshot>, b: seq<FileSnapshot>)
    requires DistinctSnapshots(files) && DistinctSnapshots(a) && DistinctSnapshots(b)
    requires forall f | f in a :: f in files && f !in b
    requires forall g | g in b :: g in files
    ensures DistinctSnapshots(a + b)
  {
    forall i, j | 0 <= i < |a| && 0 <= j < |b|
      ensures a[i].path != b[j].path
    {
      assert a[i] in a && b[j] in b;
    }
  }

  lemma {:induction false} KeyedBelowDistinct(previous: seq<FileSnapshot>, files: seq<FileSnapshot>, n: nat)
    requires DistinctSnapshots(files)
    ensures DistinctSnapshots(KeyedBelow(previous, files, n))
  {
    if n > 0 {
      KeyedBelowDistinct(previous, files, n - 1);
      KeyedDistinct(previous, files, Some(n - 1));
      JoinDistinct(files, KeyedBelow(previous, files, n - 1), Keyed(previous, files, Some(n - 1)));
    }
  }

  /** Sorting loses no file and repeats none. */
  lemma SortedDistinct(previous: seq<FileSnapshot>, files: seq<FileSnapshot>)
    requires DistinctSnapshots(files)
    ensures DistinctSnapshots(Sorted(previous, files))
  {
    KeyedBelowDistinct(previous, files, |previous|);
    KeyedDistinct(previous, files, None);
    JoinDistinct(files, KeyedBelow(previous, files, |previous|), Keyed(previous, files, None));
  }

  predicate FromPins(pins: seq<PinnedFile>, files: seq<FileSnapshot>, removals: seq<Mutation>) {
    forall f | f in files :: OpenSince(pins, f.path, f.openedBy) && UnpinFile(f.path) !in removals
  }

  lemma RefreshFilesFromPins(pins: seq<PinnedFile>, files: seq<FileSnapshot>, removals: seq<Mutation>,
                             previous: seq<FileSnapshot>,
                             latest: MessageId, retained: set<MessageId>, compacted: Option<MessageId>)
    requires DistinctSnapshots(files) && FromPins(pins, files, removals)
    ensures
      var stored := RefreshFiles(previous, files, latest, retained, compacted);
      DistinctSnapshots(stored) && FromPins(pins, stored, removals)
  {
    var anchored := ReanchorAll(previous, files, latest, retained, compacted);
    forall i | 0 <= i < |files|
      ensures anchored[i].path == files[i].path && anchored[i].openedBy == files[i].openedBy
    {
    }
    SortedDistinct(previous, anchored);
    forall f | f in anchored
      ensures OpenSince(pins, f.path, f.openedBy) && UnpinFile(f.path) !in removals
    {
      var i :| 0 <= i < |anchored| && anchored[i] == f;
      assert files[i] in files;
    }
  }

  /** A refresh stores pinned files only, each once, and none that it unpins. */
  lemma RefreshIsComputed(events: seq<Event>, read: PinnedFile -> Reading, previous: seq<FileSnapshot>,
                          latest: MessageId, retained: set<MessageId>, compacted: Option<MessageId>)
    ensures
      var files := ReadPins(Pinned(events), read, latest);
      ComputedFrom(events, RefreshFiles(previous, files.snapshots, latest, retained, compacted), files.removals)
  {
    PinnedDistinct(events);
    var pins := Pinned(events);
    ReadPinsComputed(pins, read, latest);
    var files := ReadPins(pins, read, latest);
    RefreshFilesFromPins(pins, files.snapshots, files.removals, previous, latest, retained, compacted);
  }

  /** Whether the previous refresh showed the file with this text, and where. */
  predicate ShownBefore(previous: seq<FileSnapshot>, f: FileSnapshot, anchor: MessageId) {
    exists s | s in previous :: s.path == f.path && s.openedBy == f.openedBy && s.text == f.text && s.anchor == anchor
  }

  lemma UnchangedIsShown(previous: seq<FileSnapshot>, f: FileSnapshot, anchor: MessageId)
    requires DistinctSnapshots(previous)
    ensures ShownBefore(previous, f, anchor) <==>
            Unchanged(previous, f).Some? && previous[Unchanged(previous, f).value].anchor == anchor
  {
    if k :| 0 <= k < |previous| && previous[k].path == f.path && previous[k].openedBy == f.openedBy
            && previous[k].text == f.text && previous[k].anchor == anchor {
      assert previous[k] in previous;
    }
    if Unchanged(previous, f).Some? {
      assert previous[Unchanged(previous, f).value] in previous;
    }
  }

  /**
   * What a refresh makes of a file that was read: its text as read; if it was shown so before, the place it had
   * while that is still in the conversation, and otherwise the compaction boundary; and the latest message if not.
   */
  lemma FileRefreshed(previous: seq<FileSnapshot>, files: seq<FileSnapshot>, latest: MessageId,
                      retained: set<MessageId>, compacted: Option<MessageId>, i: nat)
    returns (f: FileSnapshot)
    requires DistinctSnapshots(previous) && i < |files|
    ensures f in RefreshFiles(previous, files, latest, retained, compacted)
    ensures f.path == files[i].path && f.openedBy == files[i].openedBy && f.text == files[i].text
    ensures forall a | ShownBefore(previous, files[i], a) ::
              f.anchor == if a in retained then a else if compacted.Some? then compacted.value else latest
    ensures (forall a :: !ShownBefore(previous, files[i], a)) ==> f.anchor == latest
  {
    f := Reanchored(previous, files[i], latest, retained, compacted);
    assert ReanchorAll(previous, files, latest, retained, compacted)[i] == f;
    forall a
      ensures ShownBefore(previous, files[i], a) <==>
              Unchanged(previous, files[i]).Some? && previous[Unchanged(previous, files[i]).value].anchor == a
    {
      UnchangedIsShown(previous, files[i], a);
    }
    if Unchanged(previous, files[i]).Some? {
      var a := previous[Unchanged(previous, files[i]).value].anchor;
      assert ShownBefore(previous, files[i], a);
    }
  }

  lemma OnlyFilesRead(previous: seq<FileSnapshot>, files: seq<FileSnapshot>, latest: MessageId,
                      retained: set<MessageId>, compacted: Option<MessageId>, f: FileSnapshot)
    returns (i: nat)
    requires f in RefreshFiles(previous, files, latest, retained, compacted)
    ensures i < |files| && f.path == files[i].path && f.openedBy == files[i].openedBy && f.text == files[i].text
  {
    var anchored := ReanchorAll(previous, files, latest, retained, compacted);
    assert f in Sorted(previous, anchored);
    i :| 0 <= i < |anchored| && anchored[i] == f;
    ReanchorKeeps(previous, files[i], latest, retained, compacted);
  }

  lemma ReanchorKeeps(previous: seq<FileSnapshot>, f: FileSnapshot, latest: MessageId, retained: set<MessageId>,
                      compacted: Option<MessageId>)
    ensures
      var r := Reanchored(previous, f, latest, retained, compacted);
      r.path == f.path && r.openedBy == f.openedBy && r.text == f.text
  {
  }

  /**
   * What it makes of an instruction section: one that reads as before keeps its place if that is still in the
   * conversation and else goes to the front; one that changed, or is new after the first request, goes to the end.
   */
  lemma SectionRefreshed(previous: seq<InstructionSnapshot>, sections: seq<Section>, latest: MessageId,
                         retained: set<MessageId>, firstRequest: bool, i: nat)
    requires i < |sections| && forall j, k | 0 <= j < k < |previous| :: previous[j].key != previous[k].key
    ensures
      var r, section := RefreshInstructions(previous, sections, latest, retained, firstRequest), sections[i];
      && |r| == |sections| && r[i].key == section.key && r[i].title == section.title && r[i].text == section.text
      && (forall s | s in previous && s.key == section.key ::
            r[i].anchor == if s.text != section.text then Some(latest)
                           else if s.anchor.Some? && s.anchor.value in retained then s.anchor else None)
      && ((forall s | s in previous :: s.key != section.key) ==>
            r[i].anchor == if firstRequest then None else Some(latest))
  {
    var earlier := SectionAt(previous, sections[i].key);
    forall s | s in previous && s.key == sections[i].key
      ensures earlier == Some(s)
    {
      var j :| 0 <= j < |previous| && previous[j] == s;
      var k :| 0 <= k < |previous| && previous[k] == earlier.value;
    }
  }
}
