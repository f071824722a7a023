/**
 * Why an unchanged context keeps the provider's prompt cache warm: as a
 * conversation grows, each assembled message list begins with the whole
 * previous one, even when files and instruction sections are added.
 */
module PromptPrefix {
  import opened Types
  import opened ContextDocument
  import opened ContextState
  import opened Assembly

  predicate HasReply(history: seq<Message>) {
    exists m | m in history :: m.content.Assistant?
  }

  /** The newest message; right after a compaction that is the boundary itself. */
  function Latest(history: seq<Message>, compacted: Option<MessageId>): (r: MessageId)
    requires history != [] || compacted.Some?
  {
    if history == [] then compacted.value else history[|history| - 1].id
  }

  /** One turn's refresh: what was shown before, the files and sections as they are now. */
  function Refresh(previous: Context, files: seq<FileSnapshot>, sections: seq<Section>, history: seq<Message>,
                   compacted: Option<MessageId>): (r: Context)
    requires history != [] || compacted.Some?
  {
    var latest := Latest(history, compacted);
    Context(RefreshFiles(previous.snapshots, files, latest, Ids(history), compacted),
            RefreshInstructions(previous.instructions, sections, latest, Ids(history), !HasReply(history)))
  }

  /** `id` is a message of the conversation or the compaction boundary before it. */
  predicate Known(id: MessageId, history: seq<Message>, compacted: Option<MessageId>) {
    id in Ids(history) || compacted == Some(id)
  }

  predicate DistinctKeys(instructions: seq<InstructionSnapshot>) {
    forall i, j | 0 <= i < j < |instructions| :: instructions[i].key != instructions[j].key
  }

  /** A context as every refresh leaves it. */
  ghost predicate Settled(context: Context, history: seq<Message>, compacted: Option<MessageId>) {
    && DistinctSnapshots(context.snapshots)
    && DistinctKeys(context.instructions)
    && (forall f | f in context.snapshots :: Known(f.anchor, history, compacted))
    && (forall i | i in context.instructions && i.anchor.Some? :: Known(i.anchor.value, history, compacted))
  }

  lemma LatestKnown(history: seq<Message>, compacted: Option<MessageId>)
    requires history != [] || compacted.Some?
    ensures Known(Latest(history, compacted), history, compacted)
  {
    if history != [] {
      assert history[|history| - 1] in history;
    }
  }

  lemma ReanchoredKnown(previous: seq<FileSnapshot>, f: FileSnapshot, latest: MessageId, history: seq<Message>,
                        compacted: Option<MessageId>)
    requires Known(latest, history, compacted)
    ensures Known(Reanchored(previous, f, latest, Ids(history), compacted).anchor, history, compacted)
  {
  }

  lemma FilesSettle(previous: seq<FileSnapshot>, files: seq<FileSnapshot>, history: seq<Message>,
                    compacted: Option<MessageId>)
    requires history != [] || compacted.Some?
    requires DistinctSnapshots(files)
    ensures
      var r := RefreshFiles(previous, files, Latest(history, compacted), Ids(history), compacted);
      DistinctSnapshots(r) && forall f | f in r :: Known(f.anchor, history, compacted)
  {
    var latest := Latest(history, compacted);
    LatestKnown(history, compacted);
    var anchored := ReanchorAll(previous, files, latest, Ids(history), compacted);
    ReanchorDistinct(previous, files, latest, Ids(history), compacted);
    SortedDistinct(previous, anchored);
    forall i | 0 <= i < |anchored|
      ensures Known(anchored[i].anchor, history, compacted)
    {
      ReanchoredKnown(previous, files[i], latest, history, compacted);
    }
  }

  lemma SectionsSettle(previous: seq<InstructionSnapshot>, sections: seq<Section>, history: seq<Message>,
                       compacted: Option<MessageId>)
    requires history != [] || compacted.Some?
    requires forall i, j | 0 <= i < j < |sections| :: sections[i].key != sections[j].key
    ensures
      var r := RefreshInstructions(previous, sections, Latest(history, compacted), Ids(history), !HasReply(history));
      DistinctKeys(r) && forall i | i in r && i.anchor.Some? :: Known(i.anchor.value, history, compacted)
  {
    LatestKnown(history, compacted);
  }

  lemma RefreshSettles(previous: Context, files: seq<FileSnapshot>, sections: seq<Section>, history: seq<Message>,
                       compacted: Option<MessageId>)
    requires history != [] || compacted.Some?
    requires DistinctSnapshots(files) && forall i, j | 0 <= i < j < |sections| :: sections[i].key != sections[j].key
    ensures Settled(Refresh(previous, files, sections, history, compacted), history, compacted)
  {
    FilesSettle(previous.snapshots, files, history, compacted);
    SectionsSettle(previous.instructions, sections, history, compacted);
  }

  /** Where new and changed texts go: behind the last message, or at the boundary when there is none. */
  predicate IsLatest(id: MessageId, history: seq<Message>, compacted: Option<MessageId>) {
    if history != [] then id == history[|history| - 1].id else compacted == Some(id)
  }

  /** A refresh shows every file that was read, with its text, where it was shown before or at the latest message. */
  lemma RefreshShowsFile(previous: Context, files: seq<FileSnapshot>, sections: seq<Section>, history: seq<Message>,
                         compacted: Option<MessageId>, i: nat)
    returns (f: FileSnapshot)
    requires (history != [] || compacted.Some?) && DistinctSnapshots(previous.snapshots) && i < |files|
    ensures f in Refresh(previous, files, sections, history, compacted).snapshots
    ensures f.path == files[i].path && f.openedBy == files[i].openedBy && f.text == files[i].text
    ensures forall a | ShownBefore(previous.snapshots, files[i], a) ::
              if exists m | m in history :: m.id == a then f.anchor == a
              else if compacted.Some? then f.anchor == compacted.value else IsLatest(f.anchor, history, compacted)
    ensures (forall a :: !ShownBefore(previous.snapshots, files[i], a)) ==> IsLatest(f.anchor, history, compacted)
  {
    f := FileRefreshed(previous.snapshots, files, Latest(history, compacted), Ids(history), compacted, i);
  }

  /** And nothing but files that were read. */
  lemma RefreshShowsOnly(previous: Context, files: seq<FileSnapshot>, sections: seq<Section>, history: seq<Message>,
                         compacted: Option<MessageId>, f: FileSnapshot)
    returns (i: nat)
    requires (history != [] || compacted.Some?) && f in Refresh(previous, files, sections, history, compacted).snapshots
    ensures i < |files| && f.path == files[i].path && f.openedBy == files[i].openedBy && f.text == files[i].text
  {
    i := OnlyFilesRead(previous.snapshots, files, Latest(history, compacted), Ids(history), compacted, f);
  }

  /** And every section in order, placed likewise; on the first request all of them at the front. */
  lemma RefreshShowsSection(previous: Context, files: seq<FileSnapshot>, sections: seq<Section>, history: seq<Message>,
                            compacted: Option<MessageId>, i: nat)
    requires (history != [] || compacted.Some?) && DistinctKeys(previous.instructions) && i < |sections|
    ensures
      var r, section := Refresh(previous, files, sections, history, compacted).instructions, sections[i];
      && |r| == |sections| && r[i].key == section.key && r[i].title == section.title && r[i].text == section.text
      && (forall s | s in previous.instructions && s.key == section.key ::
            if s.text != section.text then r[i].anchor.Some? && IsLatest(r[i].anchor.value, history, compacted)
            else r[i].anchor == if s.anchor.Some? && s.anchor.value in Ids(history) then s.anchor else None)
      && ((forall s | s in previous.instructions :: s.key != section.key) ==>
            if exists m | m in history :: m.content.Assistant?
            then r[i].anchor.Some? && IsLatest(r[i].anchor.value, history, compacted) else r[i].anchor.None?)
  {
    SectionRefreshed(previous.instructions, sections, Latest(history, compacted), Ids(history), !HasReply(history), i);
  }

  /** Every file shown before is still there with the same text. */
  predicate FilesUnchanged(before: seq<FileSnapshot>, files: seq<FileSnapshot>) {
    forall s | s in before :: exists f | f in files :: f.path == s.path && f.openedBy == s.openedBy && f.text == s.text
  }

  lemma UniquePosition(before: seq<FileSnapshot>, f: FileSnapshot, k: nat)
    requires DistinctSnapshots(before) && k < |before|
    requires f.path == before[k].path && f.openedBy == before[k].openedBy && f.text == before[k].text
    ensures Unchanged(before, f) == Some(k)
  {
    assert before[k] in before;
  }

  lemma ReanchorDistinct(before: seq<FileSnapshot>, files: seq<FileSnapshot>, latest: MessageId,
                         retained: set<MessageId>,
                         compacted: Option<MessageId>)
    requires DistinctSnapshots(files)
    ensures DistinctSnapshots(ReanchorAll(before, files, latest, retained, compacted))
  {
    var anchored := ReanchorAll(before, files, latest, retained, compacted);
    forall i | 0 <= i < |files|
      ensures anchored[i].path == files[i].path
    {
    }
  }

  /** An unchanged file keeps its anchor: it is still in the conversation, or before it either way. */
  lemma AnchorKept(before: seq<FileSnapshot>, files: seq<FileSnapshot>, latest: MessageId, retained: set<MessageId>,
                   compacted: Option<MessageId>, k: nat)
    requires DistinctSnapshots(before) && FilesUnchanged(before, files) && k < |before|
    requires before[k].anchor in retained || compacted == Some(before[k].anchor)
    ensures before[k] in ReanchorAll(before, files, latest, retained, compacted)
  {
    assert before[k] in before;
    var i :| 0 <= i < |files| && files[i].path == before[k].path && files[i].openedBy == before[k].openedBy
             && files[i].text == before[k].text;
    UniquePosition(before, files[i], k);
    assert ReanchorAll(before, files, latest, retained, compacted)[i] == before[k];
  }

  lemma TwoPathsDiffer(files: seq<FileSnapshot>, path: string)
    requires DistinctSnapshots(files) && |files| >= 2
    ensures exists g | g in files :: g.path != path
  {
    assert files[0] in files && files[1] in files && files[0].path != files[1].path;
  }

  lemma OnlyOne(files: seq<FileSnapshot>, f: FileSnapshot)
    requires DistinctSnapshots(files) && f in files && forall g | g in files :: g.path == f.path
    ensures files == [f]
  {
    if |files| >= 2 {
      TwoPathsDiffer(files, f.path);
    }
  }

  /** An unchanged file sorts to its old position. */
  lemma KeptFile(before: seq<FileSnapshot>, anchored: seq<FileSnapshot>, k: nat)
    requires DistinctSnapshots(before) && DistinctSnapshots(anchored) && k < |before| && before[k] in anchored
    ensures Keyed(before, anchored, Some(k)) == [before[k]]
  {
    UniquePosition(before, before[k], k);
    KeyedDistinct(before, anchored, Some(k));
    OnlyOne(Keyed(before, anchored, Some(k)), before[k]);
  }

  ghost predicate EachKept(before: seq<FileSnapshot>, anchored: seq<FileSnapshot>) {
    forall k | 0 <= k < |before| :: Keyed(before, anchored, Some(k)) == [before[k]]
  }

  lemma SliceGrows<T>(s: seq<T>, n: nat, front: seq<T>, last: seq<T>)
    requires 0 < n <= |s| && front == s[..n - 1] && last == [s[n - 1]]
    ensures front + last == s[..n]
  {
  }

  lemma {:induction false} KeptFiles(before: seq<FileSnapshot>, anchored: seq<FileSnapshot>, n: nat)
    requires EachKept(before, anchored) && n <= |before|
    ensures KeyedBelow(before, anchored, n) == before[..n]
  {
    if n > 0 {
      KeptFiles(before, anchored, n - 1);
      SliceGrows(before, n, KeyedBelow(before, anchored, n - 1), Keyed(before, anchored, Some(n - 1)));
    }
  }

  lemma AddedAtLatest(before: seq<FileSnapshot>, files: seq<FileSnapshot>, latest: MessageId, retained: set<MessageId>,
                      compacted: Option<MessageId>, f: FileSnapshot)
    requires f in ReanchorAll(before, files, latest, retained, compacted) && Unchanged(before, f).None?
    ensures f.anchor == latest
  {
    var anchored := ReanchorAll(before, files, latest, retained, compacted);
    var i :| 0 <= i < |anchored| && anchored[i] == f;
    assert Unchanged(before, files[i]) == Unchanged(before, f);
  }

  /** The refreshed list is the old list followed by the files that are new or changed. */
  lemma FilesExtend(before: seq<FileSnapshot>, files: seq<FileSnapshot>, latest: MessageId, retained: set<MessageId>,
                    compacted: Option<MessageId>) returns (added: seq<FileSnapshot>)
    requires DistinctSnapshots(before) && DistinctSnapshots(files) && FilesUnchanged(before, files)
    requires forall s | s in before :: s.anchor in retained || compacted == Some(s.anchor)
    ensures RefreshFiles(before, files, latest, retained, compacted) == before + added
    ensures forall f | f in added :: f.anchor == latest
  {
    var anchored := ReanchorAll(before, files, latest, retained, compacted);
    ReanchorDistinct(before, files, latest, retained, compacted);
    forall k | 0 <= k < |before|
      ensures Keyed(before, anchored, Some(k)) == [before[k]]
    {
      assert before[k] in before;
      AnchorKept(before, files, latest, retained, compacted, k);
      KeptFile(before, anchored, k);
    }
    KeptFiles(before, anchored, |before|);
    assert before[..|before|] == before;
    added := Keyed(before, anchored, None);
    forall f | f in added
      ensures f.anchor == latest
    {
      AddedAtLatest(before, files, latest, retained, compacted, f);
    }
  }

  /**
   * The old sections appear among the new ones in the same order with the same text, and every
   * other new section has a key that was not there before.
   */
  predicate SectionsUnchanged(previous: seq<InstructionSnapshot>, before: seq<InstructionSnapshot>,
                              sections: seq<Section>)
    decreases |sections|
  {
    if sections == [] then before == [] else
    var last := sections[|sections| - 1];
    if before != [] && before[|before| - 1].key == last.key && before[|before| - 1].text == last.text
    then SectionsUnchanged(previous, before[..|before| - 1], sections[..|sections| - 1])
    else SectionAt(previous, last.key).None? && SectionsUnchanged(previous, before, sections[..|sections| - 1])
  }

  lemma {:induction false} SectionFound(previous: seq<InstructionSnapshot>, k: nat)
    requires DistinctKeys(previous) && k < |previous|
    ensures SectionAt(previous, previous[k].key) == Some(previous[k])
    decreases |previous|
  {
    if k > 0 {
      SectionFound(previous[1..], k - 1);
    }
  }

  /** Two placement lists show the same at `id` and in front. */
  ghost predicate SameShown(r: seq<Placed>, retained': set<MessageId>, p: seq<Placed>, retained: set<MessageId>,
                            id: MessageId)
  {
    (id in retained ==> AtAnchor(r, id) == AtAnchor(p, id)) && Loose(r, retained') == Loose(p, retained)
  }

  lemma BothExtended(r: seq<Placed>, x: Placed, retained': set<MessageId>, p: seq<Placed>, y: Placed,
                     retained: set<MessageId>,
                     id: MessageId)
    requires SameShown(r, retained', p, retained, id) && retained <= retained' && x.text == y.text
    requires IsLoose(x, retained') <==> IsLoose(y, retained)
    requires !IsLoose(y, retained) ==> x.anchor == y.anchor
    ensures SameShown(r + [x], retained', p + [y], retained, id)
  {
    assert (r + [x])[..|r|] == r && (p + [y])[..|p|] == p;
  }

  lemma NewExtended(r: seq<Placed>, x: Placed, retained': set<MessageId>, p: seq<Placed>, retained: set<MessageId>,
                    id: MessageId)
    requires SameShown(r, retained', p, retained, id)
    requires x.anchor.Some? && x.anchor.value in retained' && x.anchor.value !in retained
    ensures SameShown(r + [x], retained', p, retained, id)
  {
    assert (r + [x])[..|r|] == r;
  }

  /** Unchanged sections keep their place; added ones go behind the latest message. */
  lemma {:induction false} SectionsExtend(previous: seq<InstructionSnapshot>, n: nat, sections: seq<Section>,
                                          latest: MessageId,
                                          retained: set<MessageId>, retained': set<MessageId>, id: MessageId)
    requires DistinctKeys(previous) && n <= |previous| && SectionsUnchanged(previous, previous[..n], sections)
    requires retained <= retained' && latest in retained' && latest !in retained
    requires forall i | i in previous && i.anchor.Some? :: i.anchor.value in retained || i.anchor.value !in retained'
    ensures SameShown(PlacedInstructions(RefreshInstructions(previous, sections, latest, retained', false)), retained',
                      PlacedInstructions(previous[..n]), retained, id)
    decreases |sections|
  {
    if sections != [] {
      var last, front := sections[|sections| - 1], sections[..|sections| - 1];
      var section := RefreshSection(previous, last, latest, retained', false);
      var r := PlacedInstructions(RefreshInstructions(previous, front, latest, retained', false));
      var x := Placed(section.anchor, section.text);
      assert PlacedInstructions(RefreshInstructions(previous, sections, latest, retained', false)) == r + [x];
      if n > 0 && previous[n - 1].key == last.key && previous[n - 1].text == last.text {
        var p, y := PlacedInstructions(previous[..n - 1]), Placed(previous[n - 1].anchor, previous[n - 1].text);
        assert previous[..n][..n - 1] == previous[..n - 1];
        assert PlacedInstructions(previous[..n]) == p + [y];
        assert previous[n - 1] in previous;
        SectionFound(previous, n - 1);
        SectionsExtend(previous, n - 1, front, latest, retained, retained', id);
        BothExtended(r, x, retained', p, y, retained, id);
      } else {
        SectionsExtend(previous, n, front, latest, retained, retained', id);
        NewExtended(r, x, retained', PlacedInstructions(previous[..n]), retained, id);
      }
    }
  }

  lemma {:induction false} AtAnchorConcat(a: seq<Placed>, b: seq<Placed>, id: MessageId)
    ensures AtAnchor(a + b, id) == AtAnchor(a, id) + AtAnchor(b, id)
    decreases |b|
  {
    if b == [] {
      assert a + b == a;
    } else {
      assert (a + b)[..|a + b| - 1] == a + b[..|b| - 1];
      AtAnchorConcat(a, b[..|b| - 1], id);
    }
  }

  lemma {:induction false} LooseConcat(a: seq<Placed>, b: seq<Placed>, retained: set<MessageId>)
    ensures Loose(a + b, retained) == Loose(a, retained) + Loose(b, retained)
    decreases |b|
  {
    if b == [] {
      assert a + b == a;
    } else {
      assert (a + b)[..|a + b| - 1] == a + b[..|b| - 1];
      LooseConcat(a, b[..|b| - 1], retained);
    }
  }

  /** Texts anchored elsewhere leave an anchor's list and the loose texts alone. */
  lemma {:induction false} ElsewhereNothing(placed: seq<Placed>, latest: MessageId, retained: set<MessageId>,
                                            id: MessageId)
    requires forall p | p in placed :: p.anchor == Some(latest)
    requires latest in retained
    ensures (id != latest ==> AtAnchor(placed, id) == []) && Loose(placed, retained) == []
    decreases |placed|
  {
    if placed != [] {
      assert placed[|placed| - 1] in placed;
      ElsewhereNothing(placed[..|placed| - 1], latest, retained, id);
    }
  }

  /** Loose texts stay loose when the conversation grows, if their anchors stay out of it. */
  lemma {:induction false} LooseStays(placed: seq<Placed>, retained: set<MessageId>, retained': set<MessageId>)
    requires retained <= retained'
    requires forall p | p in placed && p.anchor.Some? :: p.anchor.value in retained || p.anchor.value !in retained'
    ensures Loose(placed, retained') == Loose(placed, retained)
    decreases |placed|
  {
    if placed != [] {
      assert placed[|placed| - 1] in placed;
      LooseStays(placed[..|placed| - 1], retained, retained');
    }
  }

  lemma {:induction false} BodySame(a: seq<Placed>, b: seq<Placed>, history: seq<Message>, served: set<MessageId>)
    requires forall id | id in Ids(history) :: AtAnchor(a, id) == AtAnchor(b, id)
    ensures Body(a, history, served) == Body(b, history, served)
    decreases |history|
  {
    if history != [] {
      assert history[0].id in Ids(history);
      assert forall id | id in Ids(history[1..]) :: id in Ids(history);
      BodySame(a, b, history[1..], served + {history[0].id});
    }
  }

  /** The next turn grows the conversation behind `history`. */
  ghost predicate Grows(context: Context, files: seq<FileSnapshot>, sections: seq<Section>, history: seq<Message>,
                        growth: seq<Message>, compacted: Option<MessageId>) {
    && growth != [] && HasReply(history + growth)
    && Latest(history + growth, compacted) !in Ids(history)
    && (compacted.Some? ==> compacted.value !in Ids(history + growth))
    && DistinctSnapshots(files) && FilesUnchanged(context.snapshots, files)
    && (forall i, j | 0 <= i < j < |sections| :: sections[i].key != sections[j].key)
    && SectionsUnchanged(context.instructions, context.instructions, sections)
  }

  /** Texts added at the latest message leave everything shown so far in place. */
  lemma AddedBehind(was: seq<Placed>, more: seq<Placed>, latest: MessageId, retained: set<MessageId>,
                    retained': set<MessageId>, id: MessageId)
    requires forall p | p in more :: p.anchor == Some(latest)
    requires retained <= retained' && latest in retained'
    requires forall p | p in was && p.anchor.Some? :: p.anchor.value in retained || p.anchor.value !in retained'
    ensures id != latest ==> AtAnchor(was + more, id) == AtAnchor(was, id)
    ensures Loose(was + more, retained') == Loose(was, retained)
  {
    AtAnchorConcat(was, more, id);
    LooseConcat(was, more, retained');
    ElsewhereNothing(more, latest, retained', id);
    LooseStays(was, retained, retained');
  }

  /** Files: what was shown keeps its place, what is new goes behind the latest message. */
  lemma FilesPlacedExtend(before: seq<FileSnapshot>, files: seq<FileSnapshot>, latest: MessageId,
                          retained: set<MessageId>,
                          retained': set<MessageId>, compacted: Option<MessageId>, id: MessageId)
    requires DistinctSnapshots(before) && DistinctSnapshots(files) && FilesUnchanged(before, files)
    requires forall f | f in before :: f.anchor in retained || compacted == Some(f.anchor)
    requires retained <= retained' && latest in retained' && (compacted.Some? ==> compacted.value !in retained')
    ensures
      var next := PlacedFiles(RefreshFiles(before, files, latest, retained', compacted));
      && (id != latest ==> AtAnchor(next, id) == AtAnchor(PlacedFiles(before), id))
      && Loose(next, retained') == Loose(PlacedFiles(before), retained)
  {
    assert forall f | f in before :: f.anchor in retained' || compacted == Some(f.anchor);
    var added := FilesExtend(before, files, latest, retained', compacted);
    FilesPlacedBehind(before, added, latest, retained, retained', id);
  }

  lemma FilesPlacedBehind(before: seq<FileSnapshot>, added: seq<FileSnapshot>, latest: MessageId,
                          retained: set<MessageId>,
                          retained': set<MessageId>, id: MessageId)
    requires forall f | f in added :: f.anchor == latest
    requires forall f | f in before :: f.anchor in retained || f.anchor !in retained'
    requires retained <= retained' && latest in retained'
    ensures id != latest ==> AtAnchor(PlacedFiles(before + added), id) == AtAnchor(PlacedFiles(before), id)
    ensures Loose(PlacedFiles(before + added), retained') == Loose(PlacedFiles(before), retained)
  {
    var was, more := PlacedFiles(before), PlacedFiles(added);
    assert PlacedFiles(before + added) == was + more;
    assert forall i | 0 <= i < |added| :: added[i] in added;
    assert forall i | 0 <= i < |was| :: before[i] in before;
    AddedBehind(was, more, latest, retained, retained', id);
  }

  /** The placements of the next turn agree with this turn's on everything shown so far. */
  lemma PlacementsExtend(context: Context, files: seq<FileSnapshot>, sections: seq<Section>, history: seq<Message>,
                         growth: seq<Message>, compacted: Option<MessageId>, id: MessageId)
    requires Settled(context, history, compacted) && Grows(context, files, sections, history, growth, compacted)
    ensures
      var next := Refresh(context, files, sections, history + growth, compacted);
      && (id in Ids(history) ==> AtAnchor(Placements(next), id) == AtAnchor(Placements(context), id))
      && Loose(Placements(next), Ids(history + growth)) == Loose(Placements(context), Ids(history))
  {
    var retained, retained' := Ids(history), Ids(history + growth);
    var latest := Latest(history + growth, compacted);
    var next := Refresh(context, files, sections, history + growth, compacted);
    assert (history + growth)[|history + growth| - 1] in history + growth;
    assert retained <= retained' && latest in retained';
    FilesPlacedExtend(context.snapshots, files, latest, retained, retained', compacted, id);
    assert context.instructions[..|context.instructions|] == context.instructions;
    SectionsExtend(context.instructions, |context.instructions|, sections, latest, retained, retained', id);
    AtAnchorConcat(PlacedInstructions(context.instructions), PlacedFiles(context.snapshots), id);
    AtAnchorConcat(PlacedInstructions(next.instructions), PlacedFiles(next.snapshots), id);
    LooseConcat(PlacedInstructions(context.instructions), PlacedFiles(context.snapshots), retained);
    LooseConcat(PlacedInstructions(next.instructions), PlacedFiles(next.snapshots), retained');
  }

  /** The next message list begins with the whole previous one. */
  lemma NextPromptExtends(prefix: string, replacement: seq<ConversationItem>, context: Context,
                          files: seq<FileSnapshot>,
                          sections: seq<Section>, history: seq<Message>, growth: seq<Message>,
                          compacted: Option<MessageId>)
    requires Settled(context, history, compacted) && Grows(context, files, sections, history, growth, compacted)
    ensures
      var next := Refresh(context, files, sections, history + growth, compacted);
      Assembled(prefix, replacement, Placements(context), history)
        <= Assembled(prefix, replacement, Placements(next), history + growth)
  {
    var next := Refresh(context, files, sections, history + growth, compacted);
    var a, b := Placements(context), Placements(next);
    forall id | id in Ids(history)
      ensures AtAnchor(a, id) == AtAnchor(b, id)
    {
      PlacementsExtend(context, files, sections, history, growth, compacted, id);
    }
    PlacementsExtend(context, files, sections, history, growth, compacted, Latest(history + growth, compacted));
    BodySame(a, b, history, {});
    BodyConcat(b, history, growth, {});
  }

  /** Any number of further turns, each keeping what it was shown. */
  datatype Turn = Turn(files: seq<FileSnapshot>, sections: seq<Section>, growth: seq<Message>)

  ghost predicate Steady(context: Context, history: seq<Message>, compacted: Option<MessageId>, turns: seq<Turn>)
    decreases |turns|
  {
    turns == [] ||
    (&& Grows(context, turns[0].files, turns[0].sections, history, turns[0].growth, compacted)
     && Steady(Refresh(context, turns[0].files, turns[0].sections, history + turns[0].growth, compacted),
               history + turns[0].growth, compacted, turns[1..]))
  }

  function PromptAfter(prefix: string, replacement: seq<ConversationItem>, context: Context, history: seq<Message>,
                       compacted: Option<MessageId>, turns: seq<Turn>): (r: seq<ConversationItem>)
    decreases |turns|
  {
    if turns == [] || history + turns[0].growth == [] then Assembled(prefix, replacement, Placements(context), history)
    else PromptAfter(prefix, replacement,
                     Refresh(context, turns[0].files, turns[0].sections, history + turns[0].growth, compacted),
                     history + turns[0].growth, compacted, turns[1..])
  }

  /** From any refreshed context, every later prompt of a steady conversation extends the present one. */
  lemma {:induction false} PromptsOnlyGrow(prefix: string, replacement: seq<ConversationItem>, context: Context,
                                           history: seq<Message>, compacted: Option<MessageId>, turns: seq<Turn>)
    requires Settled(context, history, compacted) && Steady(context, history, compacted, turns)
    ensures Assembled(prefix, replacement, Placements(context), history)
              <= PromptAfter(prefix, replacement, context, history, compacted, turns)
    decreases |turns|
  {
    if turns != [] {
      var t := turns[0];
      var next := Refresh(context, t.files, t.sections, history + t.growth, compacted);
      NextPromptExtends(prefix, replacement, context, t.files, t.sections, history, t.growth, compacted);
      RefreshSettles(context, t.files, t.sections, history + t.growth, compacted);
      PromptsOnlyGrow(prefix, replacement, next, history + t.growth, compacted, turns[1..]);
    }
  }

  /** Nothing is lost or repeated, and everything anchored stands right behind its message. */

  function Contents(history: seq<Message>): (r: seq<ConversationItem>) {
    seq(|history|, i requires 0 <= i < |history| => history[i].content)
  }

  function Texts(placed: seq<Placed>): (r: seq<ConversationItem>) {
    seq(|placed|, i requires 0 <= i < |placed| => FileContext(placed[i].text))
  }

  lemma AtAnchorAdds(placed: seq<Placed>, p: Placed, id: MessageId)
    ensures AtAnchor(placed + [p], id)
            == AtAnchor(placed, id) + (if p.anchor == Some(id) then [FileContext(p.text)] else [])
  {
    assert (placed + [p])[..|placed|] == placed;
  }

  /** What one more placement adds to the body. */
  function Share(p: Placed, places: set<MessageId>): (r: multiset<ConversationItem>) {
    if p.anchor.Some? && p.anchor.value in places then multiset{FileContext(p.text)} else multiset{}
  }

  lemma ShareSplits(p: Placed, history: seq<Message>, served: set<MessageId>)
    requires history != []
    ensures Share(p, Ids(history) - served)
         == Share(p, {history[0].id} - served) + Share(p, Ids(history[1..]) - (served + {history[0].id}))
  {
    assert forall m :: m in history <==> m == history[0] || m in history[1..];
    assert Ids(history) == {history[0].id} + Ids(history[1..]);
  }

  lemma MultisetOfMore(a: seq<ConversationItem>, x: ConversationItem)
    ensures multiset(a + [x]) == multiset(a) + multiset{x}
  {
  }

  lemma BlockAdds(placed: seq<Placed>, p: Placed, m: Message, served: set<MessageId>)
    ensures multiset(Block(placed + [p], m, served)) == multiset(Block(placed, m, served)) + Share(p, {m.id} - served)
  {
    AtAnchorAdds(placed, p, m.id);
    var text, anchored := FileContext(p.text), AtAnchor(placed, m.id);
    if m.id !in served && p.anchor == Some(m.id) {
      assert [m.content] + (anchored + [text]) == ([m.content] + anchored) + [text];
      MultisetOfMore([m.content] + anchored, text);
    } else {
      assert m.id !in served ==> AtAnchor(placed + [p], m.id) == anchored;
      assert Share(p, {m.id} - served) == multiset{};
    }
  }

  lemma MultisetOfTwo(a: seq<ConversationItem>, b: seq<ConversationItem>)
    ensures multiset(a + b) == multiset(a) + multiset(b)
  {
  }

  lemma {:induction false} BodyAdds(placed: seq<Placed>, p: Placed, history: seq<Message>, served: set<MessageId>)
    ensures multiset(Body(placed + [p], history, served))
         == multiset(Body(placed, history, served)) + Share(p, Ids(history) - served)
    decreases |history|
  {
    if history != [] {
      var m, rest := history[0], history[1..];
      BodyAdds(placed, p, rest, served + {m.id});
      ShareSplits(p, history, served);
      BlockAdds(placed, p, m, served);
      MultisetOfTwo(Block(placed, m, served), Body(placed, rest, served + {m.id}));
      MultisetOfTwo(Block(placed + [p], m, served), Body(placed + [p], rest, served + {m.id}));
    }
  }

  lemma {:induction false} BodyOfNothing(history: seq<Message>, served: set<MessageId>)
    ensures Body([], history, served) == Contents(history)
    decreases |history|
  {
    if history != [] {
      BodyOfNothing(history[1..], served + {history[0].id});
    }
  }

  lemma LooseAdds(placed: seq<Placed>, p: Placed, retained: set<MessageId>)
    ensures multiset(Loose(placed + [p], retained)) + Share(p, retained)
         == multiset(Loose(placed, retained)) + multiset{FileContext(p.text)}
  {
    assert (placed + [p])[..|placed|] == placed;
  }

  type Items = multiset<ConversationItem>

  lemma Balance(loose: Items, loose': Items, body: Items, body': Items, contents: Items, texts: Items, share: Items,
                x: Items)
    requires loose' + share == loose + x && body' == body + share && loose + body == contents + texts
    ensures loose' + body' == contents + (texts + x)
  {
    assert loose' + body' == loose' + share + body;
    assert loose + x + body == loose + body + x;
  }

  lemma OneMorePlaced(front: seq<Placed>, last: Placed, history: seq<Message>)
    requires multiset(Loose(front, Ids(history))) + multiset(Body(front, history, {}))
          == multiset(Contents(history)) + multiset(Texts(front))
    ensures multiset(Loose(front + [last], Ids(history))) + multiset(Body(front + [last], history, {}))
         == multiset(Contents(history)) + (multiset(Texts(front)) + multiset{FileContext(last.text)})
  {
    BodyAdds(front, last, history, {});
    assert Ids(history) - {} == Ids(history);
    LooseAdds(front, last, Ids(history));
    Balance(multiset(Loose(front, Ids(history))), multiset(Loose(front + [last], Ids(history))),
            multiset(Body(front, history, {})), multiset(Body(front + [last], history, {})),
            multiset(Contents(history)), multiset(Texts(front)),
            Share(last, Ids(history)), multiset{FileContext(last.text)});
  }

  lemma TextsAdd(front: seq<Placed>, last: Placed)
    ensures multiset(Texts(front + [last])) == multiset(Texts(front)) + multiset{FileContext(last.text)}
  {
    assert Texts(front + [last]) == Texts(front) + [FileContext(last.text)];
    MultisetOfMore(Texts(front), FileContext(last.text));
  }

  lemma {:induction false} PlacedOnce(placed: seq<Placed>, history: seq<Message>)
    ensures multiset(Loose(placed, Ids(history))) + multiset(Body(placed, history, {}))
         == multiset(Contents(history)) + multiset(Texts(placed))
    decreases |placed|
  {
    if placed == [] {
      BodyOfNothing(history, {});
    } else {
      var front, last := placed[..|placed| - 1], placed[|placed| - 1];
      assert placed == front + [last];
      PlacedOnce(front, history);
      OneMorePlaced(front, last, history);
      TextsAdd(front, last);
    }
  }

  lemma MultisetOfFour(x: ConversationItem, a: seq<ConversationItem>, b: seq<ConversationItem>,
                       c: seq<ConversationItem>)
    ensures multiset([x] + a + b + c) == multiset{x} + multiset(a) + multiset(b) + multiset(c)
  {
  }

  lemma Regroup(front: Items, loose: Items, body: Items, contents: Items, texts: Items)
    requires loose + body == contents + texts
    ensures front + loose + body == front + contents + texts
  {
    assert front + loose + body == front + (loose + body);
    assert front + contents + texts == front + (contents + texts);
  }

  function InstructionTexts(instructions: seq<InstructionSnapshot>): (r: seq<ConversationItem>) {
    seq(|instructions|, i requires 0 <= i < |instructions| => FileContext(instructions[i].text))
  }

  function FileTexts(snapshots: seq<FileSnapshot>): (r: seq<ConversationItem>) {
    seq(|snapshots|, i requires 0 <= i < |snapshots| => FileContext(snapshots[i].text))
  }

  /** Every message, instruction and file appears exactly once. */
  lemma AssemblyConserves(prefix: string, replacement: seq<ConversationItem>, context: Context, history: seq<Message>)
    ensures multiset(Assembled(prefix, replacement, Placements(context), history))
         == multiset{System(prefix)} + multiset(replacement) + multiset(Contents(history))
            + (multiset(InstructionTexts(context.instructions)) + multiset(FileTexts(context.snapshots)))
  {
    var placed := Placements(context);
    PlacedOnce(placed, history);
    MultisetOfFour(System(prefix), replacement, Loose(placed, Ids(history)), Body(placed, history, {}));
    Regroup(multiset{System(prefix)} + multiset(replacement), multiset(Loose(placed, Ids(history))),
            multiset(Body(placed, history, {})), multiset(Contents(history)), multiset(Texts(placed)));
    assert Texts(placed) == InstructionTexts(context.instructions) + FileTexts(context.snapshots);
    MultisetOfTwo(InstructionTexts(context.instructions), FileTexts(context.snapshots));
  }

  /** The instructions, and the files, anchored to `id`, in the order of the context. */
  function InstructionsAt(instructions: seq<InstructionSnapshot>, id: MessageId): (r: seq<ConversationItem>)
    decreases |instructions|
  {
    if instructions == [] then [] else
    var last := instructions[|instructions| - 1];
    InstructionsAt(instructions[..|instructions| - 1], id) +
    (if last.anchor == Some(id) then [FileContext(last.text)] else [])
  }

  function FilesAt(snapshots: seq<FileSnapshot>, id: MessageId): (r: seq<ConversationItem>)
    decreases |snapshots|
  {
    if snapshots == [] then [] else
    var last := snapshots[|snapshots| - 1];
    FilesAt(snapshots[..|snapshots| - 1], id) + (if last.anchor == id then [FileContext(last.text)] else [])
  }

  /** Those with no anchor in the history. */
  function LooseInstructions(instructions: seq<InstructionSnapshot>, retained: set<MessageId>)
    : (r: seq<ConversationItem>)
    decreases |instructions|
  {
    if instructions == [] then [] else
    var last := instructions[|instructions| - 1];
    LooseInstructions(instructions[..|instructions| - 1], retained) +
    (if last.anchor.Some? && last.anchor.value in retained then [] else [FileContext(last.text)])
  }

  function LooseFiles(snapshots: seq<FileSnapshot>, retained: set<MessageId>): (r: seq<ConversationItem>)
    decreases |snapshots|
  {
    if snapshots == [] then [] else
    var last := snapshots[|snapshots| - 1];
    LooseFiles(snapshots[..|snapshots| - 1], retained) +
    (if last.anchor in retained then [] else [FileContext(last.text)])
  }

  lemma {:induction false} InstructionsPlaced(instructions: seq<InstructionSnapshot>, id: MessageId,
                                              retained: set<MessageId>)
    ensures AtAnchor(PlacedInstructions(instructions), id) == InstructionsAt(instructions, id)
    ensures Loose(PlacedInstructions(instructions), retained) == LooseInstructions(instructions, retained)
    decreases |instructions|
  {
    if instructions != [] {
      var front := instructions[..|instructions| - 1];
      assert PlacedInstructions(instructions)[..|front|] == PlacedInstructions(front);
      InstructionsPlaced(front, id, retained);
    }
  }

  lemma {:induction false} FilesPlaced(snapshots: seq<FileSnapshot>, id: MessageId, retained: set<MessageId>)
    ensures AtAnchor(PlacedFiles(snapshots), id) == FilesAt(snapshots, id)
    ensures Loose(PlacedFiles(snapshots), retained) == LooseFiles(snapshots, retained)
    decreases |snapshots|
  {
    if snapshots != [] {
      var front := snapshots[..|snapshots| - 1];
      assert PlacedFiles(snapshots)[..|front|] == PlacedFiles(front);
      FilesPlaced(front, id, retained);
    }
  }

  lemma PlacementsFromContext(context: Context, id: MessageId, retained: set<MessageId>)
    ensures AtAnchor(Placements(context), id)
         == InstructionsAt(context.instructions, id) + FilesAt(context.snapshots, id)
    ensures Loose(Placements(context), retained)
         == LooseInstructions(context.instructions, retained) + LooseFiles(context.snapshots, retained)
  {
    InstructionsPlaced(context.instructions, id, retained);
    FilesPlaced(context.snapshots, id, retained);
    AtAnchorConcat(PlacedInstructions(context.instructions), PlacedFiles(context.snapshots), id);
    LooseConcat(PlacedInstructions(context.instructions), PlacedFiles(context.snapshots), retained);
  }

  /** What stands behind message `k`: its instructions, then its files, unless an earlier message has the same id. */
  function Behind(context: Context, history: seq<Message>, k: nat): (r: seq<ConversationItem>)
    requires k < |history|
  {
    if history[k].id in Ids(history[..k]) then []
    else InstructionsAt(context.instructions, history[k].id) + FilesAt(context.snapshots, history[k].id)
  }

  /** Where message `k` stands if the history begins at `start`. */
  function Position(context: Context, history: seq<Message>, start: nat, k: nat): (r: nat)
    requires k <= |history|
  {
    if k == 0 then start else Position(context, history, start, k - 1) + 1 + |Behind(context, history, k - 1)|
  }

  lemma BlockBehind(context: Context, history: seq<Message>, k: nat)
    requires k < |history|
    ensures Block(Placements(context), history[k], Ids(history[..k]))
         == [history[k].content] + Behind(context, history, k)
  {
    PlacementsFromContext(context, history[k].id, {});
  }

  /** How far the first `k` messages and what stands behind them reach. */
  function Reach(context: Context, history: seq<Message>, k: nat): (r: nat)
    requires k <= |history|
  {
    |Body(Placements(context), history[..k], {})|
  }

  lemma ReachGrows(context: Context, history: seq<Message>, k: nat)
    requires k < |history|
    ensures Reach(context, history, k + 1) == Reach(context, history, k) + 1 + |Behind(context, history, k)|
  {
    var placed := Placements(context);
    var a, block := Body(placed, history[..k], {}), Block(placed, history[k], Ids(history[..k]));
    BodyStep(placed, history, k);
    BlockBehind(context, history, k);
    assert |a + block| == |a| + |block|;
  }

  lemma ReachStarts(context: Context, history: seq<Message>)
    ensures Reach(context, history, 0) == 0
  {
  }

  lemma {:induction false} PositionIsSum(context: Context, history: seq<Message>, start: nat, k: nat, reach: seq<nat>)
    requires k <= |history| < |reach| && reach[0] == 0
    requires forall i | 0 <= i < |history| :: reach[i + 1] == reach[i] + 1 + |Behind(context, history, i)|
    ensures Position(context, history, start, k) == start + reach[k]
    decreases k
  {
    if k > 0 {
      PositionIsSum(context, history, start, k - 1, reach);
      assert reach[k - 1 + 1] == reach[k - 1] + 1 + |Behind(context, history, k - 1)|;
    }
  }

  lemma PositionIsReach(context: Context, history: seq<Message>, start: nat, k: nat)
    requires k <= |history|
    ensures Position(context, history, start, k) == start + Reach(context, history, k)
  {
    var reach: seq<nat> :=
      seq(|history| + 1, i requires 0 <= i <= |history| => Reach(context, history, i));
    ReachStarts(context, history);
    forall i | 0 <= i < |history|
      ensures reach[i + 1] == reach[i] + 1 + |Behind(context, history, i)|
    {
      ReachGrows(context, history, i);
    }
    PositionIsSum(context, history, start, k, reach);
  }

  lemma SliceOfThree(a: seq<ConversationItem>, x: ConversationItem, b: seq<ConversationItem>,
                     c: seq<ConversationItem>, all: seq<ConversationItem>)
    requires all == a + ([x] + b) + c
    ensures |a| < |all| && all[|a|] == x && |a| + 1 + |b| <= |all| && all[|a| + 1..|a| + 1 + |b|] == b
  {
  }

  lemma BodySplit(placed: seq<Placed>, history: seq<Message>, k: nat)
    requires k < |history|
    ensures Body(placed, history, {})
         == Body(placed, history[..k], {}) + Block(placed, history[k], Ids(history[..k]))
            + Body(placed, history[k + 1..], Ids(history[..k + 1]))
  {
    assert history == history[..k + 1] + history[k + 1..];
    BodyConcat(placed, history[..k + 1], history[k + 1..], {});
    BodyStep(placed, history, k);
    assert {} + Ids(history[..k + 1]) == Ids(history[..k + 1]);
  }

  lemma FrontThenBlock(front: seq<ConversationItem>, a: seq<ConversationItem>, block: seq<ConversationItem>,
                       c: seq<ConversationItem>)
    ensures front + (a + block + c) == (front + a) + block + c
  {
  }

  /** What comes before the history. */
  function Front(prefix: string, replacement: seq<ConversationItem>, context: Context, history: seq<Message>)
    : (r: seq<ConversationItem>)
  {
    [System(prefix)] + replacement + LooseInstructions(context.instructions, Ids(history))
    + LooseFiles(context.snapshots, Ids(history))
  }

  lemma AssembledFront(prefix: string, replacement: seq<ConversationItem>, context: Context, history: seq<Message>)
    ensures Assembled(prefix, replacement, Placements(context), history)
         == Front(prefix, replacement, context, history) + Body(Placements(context), history, {})
  {
    PlacementsFromContext(context, MessageId(""), Ids(history));
    var head, a, b := [System(prefix)] + replacement, LooseInstructions(context.instructions, Ids(history)),
                      LooseFiles(context.snapshots, Ids(history));
    assert head + (a + b) == head + a + b;
  }

  /**
   * The list begins with the prefix, the checkpoint and the texts without a place in the history, instructions
   * before files; message `k` stands where it must and is followed by exactly its instructions, then its files,
   * and then by the next message or the end.
   */
  lemma AssemblyPlaces(prefix: string, replacement: seq<ConversationItem>, context: Context, history: seq<Message>,
                       k: nat)
    requires k <= |history|
    ensures
      var r := Assembled(prefix, replacement, Placements(context), history);
      var front := Front(prefix, replacement, context, history);
      var at := Position(context, history, |front|, k);
      && front <= r && at <= |r| && (k == |history| ==> at == |r|)
      && (k < |history| ==>
            var next := Position(context, history, |front|, k + 1);
            at < next <= |r| && r[at] == history[k].content && r[at + 1..next] == Behind(context, history, k))
  {
    var placed, front := Placements(context), Front(prefix, replacement, context, history);
    AssembledFront(prefix, replacement, context, history);
    PositionIsReach(context, history, |front|, k);
    if k == |history| {
      assert history[..k] == history;
    } else {
      BodySplit(placed, history, k);
      BlockBehind(context, history, k);
      var a, c := Body(placed, history[..k], {}), Body(placed, history[k + 1..], Ids(history[..k + 1]));
      FrontThenBlock(front, a, Block(placed, history[k], Ids(history[..k])), c);
      SliceOfThree(front + a, history[k].content, Behind(context, history, k), c,
                   Assembled(prefix, replacement, placed, history));
    }
  }

  lemma {:induction false} InstructionListed(sections: seq<InstructionSnapshot>, id: MessageId, x: ConversationItem)
    ensures x in InstructionsAt(sections, id) <==>
            exists s | s in sections :: s.anchor == Some(id) && x == FileContext(s.text)
    decreases |sections|
  {
    if sections != [] {
      var front := sections[..|sections| - 1];
      InstructionListed(front, id, x);
      assert forall s :: s in sections <==> s in front || s == sections[|sections| - 1];
    }
  }

  lemma {:induction false} FileListed(files: seq<FileSnapshot>, id: MessageId, x: ConversationItem)
    ensures x in FilesAt(files, id) <==> exists f | f in files :: f.anchor == id && x == FileContext(f.text)
    decreases |files|
  {
    if files != [] {
      var front := files[..|files| - 1];
      FileListed(front, id, x);
      assert forall f :: f in files <==> f in front || f == files[|files| - 1];
    }
  }

  /** Right behind the first message of its id stands every text anchored to it, and nothing else. */
  lemma AnchoredStandsBehind(context: Context, history: seq<Message>, k: nat, x: ConversationItem)
    requires k < |history| && forall i | 0 <= i < k :: history[i].id != history[k].id
    ensures x in Behind(context, history, k) <==>
            || (exists s | s in context.instructions :: s.anchor == Some(history[k].id) && x == FileContext(s.text))
            || (exists f | f in context.snapshots :: f.anchor == history[k].id && x == FileContext(f.text))
  {
    InstructionListed(context.instructions, history[k].id, x);
    FileListed(context.snapshots, history[k].id, x);
  }
}
