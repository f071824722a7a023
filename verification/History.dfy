/**
 * Reading a parent chain from a tip toward the root: the plain walk with cycle
 * detection, and the cursor that reads it in pages of doubling size while
 * preferring in-memory versions of some messages.
 */
module History {
  import opened Types

  /** What a store answers for an id: nothing, a message, or a failure to read it. */
  type Store = map<MessageId, Result<Message, Error>>

  /** The whole chain from `cursor`, tip first, given the ids already visited. */
  function Walk(store: Store, cursor: Option<MessageId>, visited: set<MessageId>): (r: Result<seq<Message>, Error>)
    decreases store.Keys - visited
  {
    if cursor.None? then Ok([])
    else if cursor.value in visited then Err(ParentCycle(cursor.value))
    else if cursor.value !in store then Err(MissingMessage(cursor.value))
    else
      var message :- store[cursor.value];
      var rest :- Walk(store, message.parent, visited + {cursor.value});
      Ok([message] + rest)
  }

  /** The same walk stopped after `limit` messages. */
  function WalkUpTo(store: Store, cursor: Option<MessageId>, visited: set<MessageId>, limit: nat)
    : (r: Result<seq<Message>, Error>)
    ensures r.Ok? ==> |r.value| <= limit
    decreases limit
  {
    if cursor.None? || limit == 0 then Ok([])
    else if cursor.value in visited then Err(ParentCycle(cursor.value))
    else if cursor.value !in store then Err(MissingMessage(cursor.value))
    else
      var message :- store[cursor.value];
      var rest :- WalkUpTo(store, message.parent, visited + {cursor.value}, limit - 1);
      Ok([message] + rest)
  }

  /** The ids a walk reads, up to its end or to the first it cannot read. */
  function Trail(store: Store, cursor: Option<MessageId>, visited: set<MessageId>): (r: seq<MessageId>)
    ensures Walk(store, cursor, visited).Ok? ==> |r| == |Walk(store, cursor, visited).value|
    decreases store.Keys - visited
  {
    if cursor.None? || cursor.value in visited || cursor.value !in store || store[cursor.value].Err? then []
    else [cursor.value] + Trail(store, store[cursor.value].value.parent, visited + {cursor.value})
  }

  function Prepend(front: seq<Message>, rest: Result<seq<Message>, Error>): (r: Result<seq<Message>, Error>)
    ensures front == [] ==> r == rest
    ensures rest == Ok([]) ==> r == Ok(front)
  {
    if rest.Ok? then
      assert front == [] ==> front + rest.value == rest.value;
      assert rest.value == [] ==> front + rest.value == front;
      Ok(front + rest.value)
    else rest
  }

  method ReadHistoryChain(store: Store, from: MessageId, limit: nat) returns (r: Result<seq<Message>, Error>)
    ensures r == WalkUpTo(store, Some(from), {}, limit)
  {
    var history: seq<Message> := [];
    var visited: set<MessageId> := {};
    var cursor := Some(from);
    while cursor.Some? && |history| < limit
      invariant |history| <= limit
      invariant WalkUpTo(store, Some(from), {}, limit)
             == Prepend(history, WalkUpTo(store, cursor, visited, limit - |history|))
      decreases limit - |history|
    {
      var id := cursor.value;
      if id in visited {
        return Err(ParentCycle(id));
      }
      if id !in store {
        return Err(MissingMessage(id));
      }
      if store[id].Err? {
        return Err(store[id].error);
      }
      var message := store[id].value;
      ghost var rest := WalkUpTo(store, message.parent, visited + {id}, limit - |history| - 1);
      if rest.Ok? {
        assert history + ([message] + rest.value) == (history + [message]) + rest.value;
      }
      visited := visited + {id};
      cursor := message.parent;
      history := history + [message];
    }
    r := Ok(history);
  }

  type Overlay = map<MessageId, Message>

  /** What the cursor is meant to read: stored messages with overlay versions substituted. */
  function Merged(store: Store, overlay: Overlay): (r: Store) {
    store + map id | id in overlay :: Ok(overlay[id])
  }

  predicate OverlayOnly(store: Store, overlay: Overlay, id: MessageId) {
    id in overlay && id !in store
  }

  /** Overlay entries keep their stored parents. */
  ghost predicate Agrees(store: Store, overlay: Overlay) {
    forall id | id in overlay && id in store :: store[id].Ok? && store[id].value.parent == overlay[id].parent
  }

  ghost predicate FollowsStored(store: Store, id: MessageId) {
    exists k | k in store :: store[k].Ok? && store[k].value.parent == Some(id)
  }

  /** The failure to find, in the store, the parent of a stored message that only the overlay has. */
  ghost predicate Stray(store: Store, overlay: Overlay, e: Error) {
    e.MissingMessage? && OverlayOnly(store, overlay, e.id) && FollowsStored(store, e.id)
  }

  /** What was visited leads to `next`: every visited message could be read and is followed by another or by `next`. */
  ghost predicate Leads(view: Store, visited: set<MessageId>, next: Option<MessageId>) {
    forall v | v in visited ::
      && v in view && view[v].Ok?
      && (view[v].value.parent == next || (view[v].value.parent.Some? && view[v].value.parent.value in visited))
  }

  /** Reading the whole and reading in pages fail alike: with the same error, or both on a cycle. */
  predicate SameFailure(whole: Result<seq<Message>, Error>, e: Error) {
    whole.Err? && if whole.error.ParentCycle? then e.ParentCycle? else whole.error == e
  }

  /** Once a walk is back among visited messages it stays there, so the store can only report the cycle. */
  lemma {:induction false} CycleReported(store: Store, overlay: Overlay, cursor: MessageId, seen: set<MessageId>,
                                         visited: set<MessageId>, limit: nat)
    requires Agrees(store, overlay) && cursor in visited && Leads(Merged(store, overlay), visited, Some(cursor))
    requires forall v | v in visited ::
               Merged(store, overlay)[v].value.parent.Some? && Merged(store, overlay)[v].value.parent.value in visited
    requires OverlayOnly(store, overlay, cursor) ==> FollowsStored(store, cursor)
    requires WalkUpTo(store, Some(cursor), seen, limit).Err?
    ensures
      var e := WalkUpTo(store, Some(cursor), seen, limit).error;
      e.ParentCycle? || Stray(store, overlay, e)
    decreases limit
  {
    if cursor !in seen && cursor in store {
      assert Merged(store, overlay)[cursor].Ok?;
      var parent := store[cursor].value.parent;
      assert Merged(store, overlay)[cursor].value.parent == parent;
      CycleReported(store, overlay, parent.value, seen + {cursor}, visited, limit - 1);
    }
  }

  /** When a store page fails, the merged walk fails alike, unless the store lacks a parent the overlay has. */
  lemma {:induction false} StorePageError(store: Store, overlay: Overlay, cursor: Option<MessageId>,
                                          seen: set<MessageId>, visited: set<MessageId>, limit: nat)
    requires Agrees(store, overlay) && seen <= visited && Leads(Merged(store, overlay), visited, cursor)
    requires cursor.Some? && OverlayOnly(store, overlay, cursor.value) ==> FollowsStored(store, cursor.value)
    requires WalkUpTo(store, cursor, seen, limit).Err?
    ensures
      var e := WalkUpTo(store, cursor, seen, limit).error;
      Stray(store, overlay, e) || SameFailure(Walk(Merged(store, overlay), cursor, visited), e)
    decreases limit
  {
    var id := cursor.value;
    if id in visited {
      CycleReported(store, overlay, id, seen, visited, limit);
    } else if id in store && store[id].Ok? {
      assert Merged(store, overlay)[id].Ok? && Merged(store, overlay)[id].value.parent == store[id].value.parent;
      StorePageError(store, overlay, store[id].value.parent, seen + {id}, visited + {id}, limit - 1);
    }
  }

  /** The messages a request for `limit` of them reaches are all in the store. */
  predicate Stored(store: Store, trail: seq<MessageId>, limit: nat) {
    forall i | 0 <= i < limit && i < |trail| :: trail[i] in store
  }

  /** A store page can be read exactly when the store has every message on it. */
  lemma {:induction false} StorePageReadable(store: Store, overlay: Overlay, cursor: Option<MessageId>,
                                             seen: set<MessageId>, visited: set<MessageId>, limit: nat)
    requires Agrees(store, overlay) && seen <= visited && Walk(Merged(store, overlay), cursor, visited).Ok?
    ensures WalkUpTo(store, cursor, seen, limit).Ok?
       <==> Stored(store, Trail(Merged(store, overlay), cursor, visited), limit)
    decreases limit
  {
    if cursor.Some? && limit > 0 {
      var view, id := Merged(store, overlay), cursor.value;
      var trail := Trail(view, cursor, visited);
      assert trail[0] == id;
      if id in store {
        var rest := Trail(view, view[id].value.parent, visited + {id});
        assert view[id].value.parent == store[id].value.parent && trail == [id] + rest;
        StorePageReadable(store, overlay, store[id].value.parent, seen + {id}, visited + {id}, limit - 1);
        assert Stored(store, trail, limit) <==> Stored(store, rest, limit - 1) by {
          assert forall i | 0 <= i < |rest| :: rest[i] == trail[i + 1];
          assert forall i | 0 < i < |trail| :: trail[i] == rest[i - 1];
        }
      }
    }
  }

  /**
   * Of the first `size` messages, those behind the first that is not in the overlay are read from the store in
   * one request, so any of them that is not stored must have only overlay messages in front of it.
   */
  predicate PageReadable(store: Store, overlay: Overlay, trail: seq<MessageId>, size: nat) {
    forall k | 0 <= k < size && k < |trail| && trail[k] !in store :: InMemory(overlay, trail, k + 1)
  }

  /** The first `n` messages are in the overlay. */
  predicate InMemory(overlay: Overlay, trail: seq<MessageId>, n: nat)
    requires n <= |trail|
  {
    forall j | 0 <= j < n :: trail[j] in overlay
  }

  /** Every page of doubling size can be read. */
  predicate PagesReadable(store: Store, overlay: Overlay, trail: seq<MessageId>, size: nat)
    requires size > 0
    decreases |trail|
  {
    PageReadable(store, overlay, trail, size)
    && (|trail| <= size || PagesReadable(store, overlay, trail[size..], Doubled(size)))
  }

  /** With `n` overlay messages in front and then another, the page is readable when the rest of it is stored. */
  lemma ReadableBehind(store: Store, overlay: Overlay, trail: seq<MessageId>, n: nat, size: nat)
    requires n < |trail| && n < size && trail[n] !in overlay && InMemory(overlay, trail, n)
    ensures PageReadable(store, overlay, trail, size) <==> Stored(store, trail[n..], size - n)
  {
    var rest := trail[n..];
    assert forall k | n <= k < |trail| :: trail[k] == rest[k - n];
    assert forall i | 0 <= i < |rest| :: rest[i] == trail[n + i];
  }

  lemma ReadableFrom(store: Store, overlay: Overlay, trail: seq<MessageId>, n: nat, cursor: MessageId,
                     visited: set<MessageId>, size: nat)
    requires Agrees(store, overlay) && cursor !in overlay && n <= |trail| && InMemory(overlay, trail, n)
    requires n < size && Trail(Merged(store, overlay), Some(cursor), visited) == trail[n..]
    ensures Walk(Merged(store, overlay), Some(cursor), visited).Ok? ==>
              (WalkUpTo(store, Some(cursor), {}, size - n).Ok? <==> PageReadable(store, overlay, trail, size))
  {
    if Walk(Merged(store, overlay), Some(cursor), visited).Ok? {
      StorePageReadable(store, overlay, Some(cursor), {}, visited, size - n);
      assert trail[n..][0] == cursor;
      ReadableBehind(store, overlay, trail, n, size);
    }
  }

  /** A page read, the others remain. */
  lemma PagesBehind(store: Store, overlay: Overlay, trail: seq<MessageId>, size: nat, n: nat)
    requires size > 0 && PageReadable(store, overlay, trail, size)
    requires n <= |trail| && (n == size || n == |trail| <= size)
    ensures PagesReadable(store, overlay, trail, size) <==> PagesReadable(store, overlay, trail[n..], Doubled(size))
  {
  }

  lemma ReadableFront(store: Store, overlay: Overlay, trail: seq<MessageId>, n: nat, size: nat)
    requires n <= |trail| && (n >= size || n == |trail|) && InMemory(overlay, trail, n)
    ensures PageReadable(store, overlay, trail, size)
  {
  }

  /** A walk over stored messages only is always readable. */
  lemma {:induction false} StoredPagesReadable(store: Store, overlay: Overlay, trail: seq<MessageId>, size: nat)
    requires size > 0 && forall id | id in trail :: id in store
    ensures PagesReadable(store, overlay, trail, size)
    decreases |trail|
  {
    if |trail| > size {
      assert forall id | id in trail[size..] :: id in trail;
      StoredPagesReadable(store, overlay, trail[size..], Doubled(size));
    }
  }

  function Doubled(size: nat): (r: nat) {
    if size * 2 > USIZE_MAX then USIZE_MAX else size * 2
  }

  function Shorter(limit: nat, count: nat): nat {
    if limit < count then limit else count
  }

  lemma UpToHead(store: Store, cursor: Option<MessageId>, visited: set<MessageId>, limit: nat, messages: seq<Message>)
    requires WalkUpTo(store, cursor, visited, limit) == Ok(messages) && messages != []
    ensures limit > 0 && cursor.Some? && cursor.value in store && store[cursor.value] == Ok(messages[0])
    ensures WalkUpTo(store, messages[0].parent, visited + {cursor.value}, limit - 1) == Ok(messages[1..])
  {
  }

  lemma TrailTail(trail: seq<MessageId>, n: nat, id: MessageId, rest: seq<MessageId>)
    requires n <= |trail| && trail[n..] == [id] + rest
    ensures n < |trail| && trail[n] == id && trail[n + 1..] == rest
  {
    assert trail[n..][0] == id && trail[n..][1..] == trail[n + 1..];
  }

  /** Where messages starting at `from` go on behind the first `i`: at the parent of the last of these. */
  function IdAt(from: Option<MessageId>, messages: seq<Message>, i: nat): (r: Option<MessageId>)
    requires i <= |messages|
  {
    if i == 0 then from else messages[i - 1].parent
  }

  /** The in-memory version of a message, or the stored one if there is none. */
  predicate Version(store: Store, overlay: Overlay, id: Option<MessageId>, message: Message) {
    && id.Some?
    && if id.value in overlay then message == overlay[id.value]
       else id.value in store && store[id.value] == Ok(message)
  }

  /** Each message is the version to show of what its predecessor points to. */
  ghost predicate Versions(store: Store, overlay: Overlay, from: Option<MessageId>, messages: seq<Message>) {
    forall i | 0 <= i < |messages| :: Version(store, overlay, IdAt(from, messages, i), messages[i])
  }

  ghost predicate DistinctFrom(from: Option<MessageId>, messages: seq<Message>, visited: set<MessageId>) {
    forall i | 0 <= i < |messages| ::
      && IdAt(from, messages, i).Some? && IdAt(from, messages, i).value !in visited
      && forall j | 0 <= j < i :: IdAt(from, messages, j) != IdAt(from, messages, i)
  }

  lemma VersionsTail(store: Store, overlay: Overlay, from: Option<MessageId>, messages: seq<Message>)
    requires messages != []
    ensures Versions(store, overlay, from, messages) <==>
            && Version(store, overlay, from, messages[0])
            && Versions(store, overlay, messages[0].parent, messages[1..])
  {
    var rest, parent := messages[1..], messages[0].parent;
    if Versions(store, overlay, from, messages) {
      assert Version(store, overlay, IdAt(from, messages, 0), messages[0]);
      forall i | 0 <= i < |rest|
        ensures Version(store, overlay, IdAt(parent, rest, i), rest[i])
      {
        assert Version(store, overlay, IdAt(from, messages, i + 1), messages[i + 1]);
      }
    }
    if Version(store, overlay, from, messages[0]) && Versions(store, overlay, parent, rest) {
      forall i | 0 <= i < |messages|
        ensures Version(store, overlay, IdAt(from, messages, i), messages[i])
      {
        if i > 0 {
          assert Version(store, overlay, IdAt(parent, rest, i - 1), rest[i - 1]);
        }
      }
    }
  }

  lemma {:induction false} TrailVersions(store: Store, overlay: Overlay, cursor: Option<MessageId>,
                                         visited: set<MessageId>, page: seq<Message>)
    requires
      var view := Merged(store, overlay);
      var trail := Trail(view, cursor, visited);
      |page| <= |trail| && forall i | 0 <= i < |page| :: trail[i] in view && view[trail[i]] == Ok(page[i])
    ensures Versions(store, overlay, cursor, page)
    decreases |page|
  {
    if page != [] {
      var view := Merged(store, overlay);
      var trail := Trail(view, cursor, visited);
      assert trail[0] == cursor.value && view[trail[0]] == Ok(page[0]);
      var rest := Trail(view, page[0].parent, visited + {cursor.value});
      assert trail == [cursor.value] + rest;
      forall i | 0 <= i < |page| - 1
        ensures rest[i] in view && view[rest[i]] == Ok(page[1..][i])
      {
        assert rest[i] == trail[i + 1];
      }
      TrailVersions(store, overlay, page[0].parent, visited + {cursor.value}, page[1..]);
      VersionsTail(store, overlay, cursor, page);
    }
  }

  /** A list of such versions that ends at a root and repeats no id. */
  ghost predicate Listed(store: Store, overlay: Overlay, from: Option<MessageId>, visited: set<MessageId>,
                         all: seq<Message>)
  {
    Versions(store, overlay, from, all) && DistinctFrom(from, all, visited) && IdAt(from, all, |all|).None?
  }

  /** The whole walk has a result exactly when there is such a list, and then it is the result. */
  lemma {:induction false} WalkVersions(store: Store, overlay: Overlay, cursor: Option<MessageId>,
                                        visited: set<MessageId>, all: seq<Message>)
    ensures Walk(Merged(store, overlay), cursor, visited) == Ok(all) <==> Listed(store, overlay, cursor, visited, all)
    decreases |all|
  {
    if all != [] {
      ListedHead(store, overlay, cursor, visited, all);
      if cursor.Some? && cursor.value !in visited {
        WalkVersions(store, overlay, all[0].parent, visited + {cursor.value}, all[1..]);
        WalkHead(Merged(store, overlay), cursor, visited, all);
      }
    }
  }

  lemma WalkHead(view: Store, cursor: Option<MessageId>, visited: set<MessageId>, all: seq<Message>)
    requires all != [] && cursor.Some? && cursor.value !in visited
    ensures Walk(view, cursor, visited) == Ok(all) <==>
            && cursor.value in view && view[cursor.value] == Ok(all[0])
            && Walk(view, all[0].parent, visited + {cursor.value}) == Ok(all[1..])
  {
    assert all == [all[0]] + all[1..];
  }

  lemma ListedHead(store: Store, overlay: Overlay, from: Option<MessageId>, visited: set<MessageId>,
                   all: seq<Message>)
    requires all != []
    ensures Listed(store, overlay, from, visited, all) <==>
            && from.Some? && from.value !in visited
            && Version(store, overlay, from, all[0])
            && Listed(store, overlay, all[0].parent, visited + {from.value}, all[1..])
  {
    VersionsTail(store, overlay, from, all);
    if from.Some? && from.value !in visited {
      DistinctTail(from, all, visited);
    } else {
      assert IdAt(from, all, 0) == from;
    }
  }

  lemma DistinctTail(from: Option<MessageId>, messages: seq<Message>, visited: set<MessageId>)
    requires messages != [] && from.Some? && from.value !in visited
    ensures DistinctFrom(from, messages, visited) <==>
            DistinctFrom(messages[0].parent, messages[1..], visited + {from.value})
  {
    var rest, parent, more := messages[1..], messages[0].parent, visited + {from.value};
    assert forall i | 0 <= i < |messages| :: IdAt(parent, rest, i) == IdAt(from, messages, i + 1);
    if DistinctFrom(from, messages, visited) {
      forall i | 0 <= i < |rest|
        ensures IdAt(parent, rest, i).Some? && IdAt(parent, rest, i).value !in more
        ensures forall j | 0 <= j < i :: IdAt(parent, rest, j) != IdAt(parent, rest, i)
      {
        assert IdAt(from, messages, 0) != IdAt(from, messages, i + 1);
      }
    }
    if DistinctFrom(parent, rest, more) {
      forall i | 0 <= i < |messages|
        ensures IdAt(from, messages, i).Some? && IdAt(from, messages, i).value !in visited
        ensures forall j | 0 <= j < i :: IdAt(from, messages, j) != IdAt(from, messages, i)
      {
        if i > 0 {
          assert IdAt(from, messages, i) == IdAt(parent, rest, i - 1);
          assert forall j | 0 < j < i :: IdAt(from, messages, j) == IdAt(parent, rest, j - 1);
        }
      }
    }
  }

  class HistoryCursor {
    const store: Store
    const overlay: Overlay
    var next: Option<MessageId>
    var visited: set<MessageId>
    var pageSize: nat

    constructor (store: Store, overlay: Overlay, from: Option<MessageId>)
      ensures this.store == store && this.overlay == overlay
      ensures next == from && visited == {} && pageSize == 1
    {
      this.store := store;
      this.overlay := overlay;
      next, visited, pageSize := from, {}, 1;
    }

    /** What every page relies on and leaves behind. */
    ghost predicate Valid()
      reads this
    {
      Agrees(store, overlay) && pageSize > 0 && Leads(View(), visited, next)
    }

    function View(): Store {
      Merged(store, overlay)
    }

    /** What is still to be read. */
    function Remaining(): Result<seq<Message>, Error>
      reads this
    {
      Walk(View(), next, visited)
    }

    /** The ids still to be read. */
    function Ahead(): seq<MessageId>
      reads this
    {
      Trail(View(), next, visited)
    }

    /** `page` holds the first messages of `trail`, and the rest of it starts at `cursor`. */
    ghost predicate OnTrail(trail: seq<MessageId>, page: seq<Message>, cursor: Option<MessageId>)
      reads this
    {
      && |page| <= |trail| && Trail(View(), cursor, visited) == trail[|page|..]
      && forall i | 0 <= i < |page| :: trail[i] in View() && View()[trail[i]] == Ok(page[i])
    }

    /** `page` was read of a walk along `trail` with this result, and the cursor stands behind it. */
    ghost predicate Delivered(page: seq<Message>, trail: seq<MessageId>, whole: Result<seq<Message>, Error>, size: nat,
                              before: set<MessageId>)
      reads this
    {
      && Valid() && pageSize == Doubled(size) && 0 < |page| <= size && before < visited
      && whole == Prepend(page, Remaining()) && (|page| == size || next.None?)
      && OnTrail(trail, page, next) && next == page[|page| - 1].parent
    }

    /**
     * One page. When the rest of the walk succeeds, the page is its first `pageSize` messages
     * and the cursor stands exactly behind them, unless the store lacks a message behind the first that is
     * not in the overlay; when it fails, either this page reports the failure or a full page is delivered and
     * the failure is still ahead.
     */
    method NextPage() returns (r: Result<Option<seq<Message>>, Error>)
      requires Valid()
      modifies this
      ensures old(next).None? ==> r == Ok(None) && next.None? && visited == old(visited) && pageSize == old(pageSize)
      ensures old(next).Some? && r.Ok? ==>
                && Valid() && r.value.Some? && pageSize == Doubled(old(pageSize))
                && 0 < |r.value.value| <= old(pageSize)
                && old(visited) < visited
                && old(Remaining()) == Prepend(r.value.value, Remaining())
                && (|r.value.value| == old(pageSize) || next.None?)
                && OnTrail(old(Ahead()), r.value.value, next)
                && Versions(store, overlay, old(next), r.value.value)
                && next == r.value.value[|r.value.value| - 1].parent
      ensures old(next).Some? && old(Remaining()).Ok? ==>
                (r.Ok? <==> PageReadable(store, overlay, old(Ahead()), old(pageSize)))
      ensures old(next).Some? && r.Err? ==>
                Stray(store, overlay, r.error) || SameFailure(old(Remaining()), r.error)
    {
      if next.None? {
        return Ok(None);
      }
      var cursor := next.value;
      ghost var whole, trail := Remaining(), Ahead();
      next := None;
      r := ReadPage(cursor, trail, whole);
      if r.Ok? {
        TrailVersions(store, overlay, Some(cursor), old(visited), r.value.value);
      }
    }

    /** The page from `cursor`: what the overlay has, then the store's. */
    method ReadPage(cursor: MessageId, ghost trail: seq<MessageId>, ghost whole: Result<seq<Message>, Error>)
      returns (r: Result<Option<seq<Message>>, Error>)
      requires Agrees(store, overlay) && pageSize > 0 && Passing(Some(cursor), [], trail, whole)
      modifies this
      ensures r.Ok? ==> r.value.Some? && Delivered(r.value.value, trail, whole, old(pageSize), old(visited))
      ensures whole.Ok? ==> (r.Ok? <==> PageReadable(store, overlay, trail, old(pageSize)))
      ensures r.Err? ==> Stray(store, overlay, r.error) || SameFailure(whole, r.error)
    {
      var front, more := PassOverlay(cursor, trail, whole);
      if front.Err? {
        return Err(front.error);
      }
      var page := front.value;
      if more.Some? {
        r := ReadStored(more.value, page, trail, whole);
      } else {
        ReadableFront(store, overlay, trail, |page|, pageSize);
        FinishPage(page, trail, whole, old(visited));
        r := Ok(Some(page));
      }
    }

    /** Everything on the page so far came from the overlay, and the walk goes on at `cursor`. */
    ghost predicate Passing(cursor: Option<MessageId>, page: seq<Message>, trail: seq<MessageId>,
                            whole: Result<seq<Message>, Error>)
      reads this
    {
      && |page| <= pageSize && (page != [] ==> page[|page| - 1].parent == cursor)
      && whole == Prepend(page, Walk(View(), cursor, visited)) && Leads(View(), visited, cursor)
      && OnTrail(trail, page, cursor) && InMemory(overlay, trail, |page|)
    }

    method PushOverlay(page: seq<Message>, id: MessageId, ghost trail: seq<MessageId>,
                       ghost whole: Result<seq<Message>, Error>)
      returns (r: Result<seq<Message>, Error>)
      requires id in overlay && |page| < pageSize && Passing(Some(id), page, trail, whole)
      modifies this`visited
      ensures r.Err? ==> SameFailure(whole, r.error) && visited == old(visited)
      ensures r.Ok? ==>
                && |r.value| == |page| + 1 && Passing(overlay[id].parent, r.value, trail, whole)
                && visited == old(visited) + {id} && id !in old(visited) && id in View()
    {
      r := Push(page, id, overlay[id], trail, whole);
    }

    /** The overlay messages at the front of a page, and where the store takes over unless the page is done. */
    method PassOverlay(from: MessageId, ghost trail: seq<MessageId>, ghost whole: Result<seq<Message>, Error>)
      returns (r: Result<seq<Message>, Error>, more: Option<MessageId>)
      requires pageSize > 0 && Passing(Some(from), [], trail, whole)
      modifies this`visited
      ensures r.Err? ==> SameFailure(whole, r.error)
      ensures r.Ok? ==>
                && Passing(IdAt(Some(from), r.value, |r.value|), r.value, trail, whole)
                && old(visited) <= visited && (r.value != [] ==> old(visited) < visited)
                && if more.Some?
                   then |r.value| < pageSize && more == IdAt(Some(from), r.value, |r.value|) && more.value !in overlay
                   else r.value != [] && (|r.value| == pageSize || r.value[|r.value| - 1].parent.None?)
    {
      var cursor := from;
      var page: seq<Message> := [];
      while cursor in overlay
        invariant |page| < pageSize && Passing(Some(cursor), page, trail, whole)
        invariant Some(cursor) == IdAt(Some(from), page, |page|)
        invariant old(visited) <= visited
        invariant page != [] ==> old(visited) < visited
        decreases pageSize - |page|
      {
        var message := overlay[cursor];
        var pushed := PushOverlay(page, cursor, trail, whole);
        if pushed.Err? {
          return Err(pushed.error), None;
        }
        page := pushed.value;
        if message.parent.Some? && |page| < pageSize {
          cursor := message.parent.value;
        } else {
          return Ok(page), None;
        }
      }
      r, more := Ok(page), Some(cursor);
    }

    /** The part of a page that comes from the store, read in one request from `cursor`. */
    method ReadStored(cursor: MessageId, front: seq<Message>, ghost trail: seq<MessageId>,
                      ghost whole: Result<seq<Message>, Error>)
      returns (r: Result<Option<seq<Message>>, Error>)
      requires Agrees(store, overlay) && |front| < pageSize && cursor !in overlay
               && Leads(View(), visited, Some(cursor))
      requires whole == Prepend(front, Walk(View(), Some(cursor), visited)) && OnTrail(trail, front, Some(cursor))
      requires InMemory(overlay, trail, |front|)
      modifies this
      ensures r.Ok? ==>
                && r.value.Some? && Delivered(r.value.value, trail, whole, old(pageSize), old(visited))
      ensures whole.Ok? ==> (r.Ok? <==> PageReadable(store, overlay, trail, old(pageSize)))
      ensures r.Err? ==> Stray(store, overlay, r.error) || SameFailure(whole, r.error)
    {
      var read := ReadHistoryChain(store, cursor, pageSize - |front|);
      ReadableFrom(store, overlay, trail, |front|, cursor, visited, pageSize);
      if read.Err? {
        StorePageError(store, overlay, Some(cursor), {}, visited, pageSize - |front|);
        return Err(read.error);
      }
      r := PushStored(cursor, front, read.value, trail, whole);
    }

    /** Each stored message, or its overlay version, onto the page. */
    method PushStored(cursor: MessageId, front: seq<Message>, read: seq<Message>,
                      ghost trail: seq<MessageId>, ghost whole: Result<seq<Message>, Error>)
      returns (r: Result<Option<seq<Message>>, Error>)
      requires Agrees(store, overlay) && |front| < pageSize && cursor !in overlay
               && Leads(View(), visited, Some(cursor))
      requires whole == Prepend(front, Walk(View(), Some(cursor), visited)) && OnTrail(trail, front, Some(cursor))
      requires WalkUpTo(store, Some(cursor), {}, pageSize - |front|) == Ok(read)
      modifies this
      ensures r.Ok? ==>
                && r.value.Some? && Delivered(r.value.value, trail, whole, old(pageSize), old(visited))
                && front < r.value.value && Versions(store, overlay, Some(cursor), r.value.value[|front|..])
      ensures r.Err? ==> SameFailure(whole, r.error)
    {
      var page := front;
      var requested := Some(cursor);
      ghost var seen: set<MessageId> := {};
      var rest := read;
      while rest != []
        invariant pageSize == old(pageSize) && front <= page && |page| <= pageSize
        invariant Reading(requested, seen, rest, page, trail, whole)
        invariant old(visited) <= visited
        invariant if |page| == |front| then rest == read && requested == Some(cursor)
                  else old(visited) < visited && page[|page| - 1].parent == requested
        decreases |rest|
      {
        var pushed := PushNext(requested.value, seen, rest, page, trail, whole);
        if pushed.Err? {
          return Err(pushed.error);
        }
        seen := seen + {requested.value};
        page, requested, rest := pushed.value, rest[0].parent, rest[1..];
      }
      assert |page| == pageSize || requested.None?;
      BehindFront(trail, front, page, cursor, old(visited));
      FinishPage(page, trail, whole, old(visited));
      r := Ok(Some(page));
    }

    lemma BehindFront(trail: seq<MessageId>, front: seq<Message>, page: seq<Message>, cursor: MessageId,
                      visited: set<MessageId>)
      requires |front| <= |page| <= |trail| && Trail(View(), Some(cursor), visited) == trail[|front|..]
      requires forall i | 0 <= i < |page| :: trail[i] in View() && View()[trail[i]] == Ok(page[i])
      ensures Versions(store, overlay, Some(cursor), page[|front|..])
    {
      var behind := page[|front|..];
      forall i | 0 <= i < |behind|
        ensures trail[|front|..][i] in View() && View()[trail[|front|..][i]] == Ok(behind[i])
      {
        assert trail[|front|..][i] == trail[|front| + i];
      }
      TrailVersions(store, overlay, Some(cursor), visited, behind);
    }

    /** `rest` is what is left of a store page that was asked for at `requested`. */
    ghost predicate Reading(requested: Option<MessageId>, seen: set<MessageId>, rest: seq<Message>, page: seq<Message>,
                            trail: seq<MessageId>, whole: Result<seq<Message>, Error>)
      reads this
    {
      && |page| <= pageSize && WalkUpTo(store, requested, seen, pageSize - |page|) == Ok(rest)
      && (rest != [] ==> requested.Some?)
      && whole == Prepend(page, Walk(View(), requested, visited)) && Leads(View(), visited, requested)
      && OnTrail(trail, page, requested)
    }

    /** The next stored message, or its overlay version, onto the page. */
    method PushNext(id: MessageId, ghost seen: set<MessageId>, rest: seq<Message>, page: seq<Message>,
                    ghost trail: seq<MessageId>, ghost whole: Result<seq<Message>, Error>)
      returns (r: Result<seq<Message>, Error>)
      requires Agrees(store, overlay) && rest != [] && Reading(Some(id), seen, rest, page, trail, whole)
      modifies this`visited
      ensures r.Err? ==> r == Err(ParentCycle(id)) && whole == Err(ParentCycle(id)) && visited == old(visited)
      ensures r.Ok? ==>
                && |r.value| == |page| + 1 <= pageSize && page < r.value && r.value[|page|].parent == rest[0].parent
                && visited == old(visited) + {id} && id !in old(visited) && id in View()
                && Reading(rest[0].parent, seen + {id}, rest[1..], r.value, trail, whole)
    {
      UpToHead(store, Some(id), seen, pageSize - |page|, rest);
      r := Push(page, id, if id in overlay then overlay[id] else rest[0], trail, whole);
    }

    /** One message onto the page, refused if it was visited before. */
    method Push(page: seq<Message>, id: MessageId, message: Message, ghost trail: seq<MessageId>,
                ghost whole: Result<seq<Message>, Error>)
      returns (r: Result<seq<Message>, Error>)
      requires id in View() && View()[id] == Ok(message) && Leads(View(), visited, Some(id))
      requires whole == Prepend(page, Walk(View(), Some(id), visited)) && OnTrail(trail, page, Some(id))
      modifies this`visited
      ensures id in old(visited)
              ==> r == Err(ParentCycle(id)) && whole == Err(ParentCycle(id)) && visited == old(visited)
      ensures id !in old(visited) ==>
                && r == Ok(page + [message]) && visited == old(visited) + {id}
                && Leads(View(), visited, message.parent)
                && whole == Prepend(page + [message], Walk(View(), message.parent, visited))
                && OnTrail(trail, page + [message], message.parent)
    {
      if id in visited {
        return Err(ParentCycle(id));
      }
      visited := visited + {id};
      PrependTwice(whole, page, [message], Walk(View(), message.parent, visited));
      TrailTail(trail, |page|, id, Trail(View(), message.parent, visited));
      r := Ok(page + [message]);
    }

    /** The page is complete and was read along `trail`. */
    ghost predicate Finished(page: seq<Message>, trail: seq<MessageId>, whole: Result<seq<Message>, Error>,
                             before: set<MessageId>)
      reads this
    {
      && page != [] && |page| <= pageSize && before < visited
      && var parent := page[|page| - 1].parent;
         && Leads(View(), visited, parent) && whole == Prepend(page, Walk(View(), parent, visited))
         && (|page| == pageSize || parent.None?) && OnTrail(trail, page, parent)
    }

    method FinishPage(page: seq<Message>, ghost trail: seq<MessageId>, ghost whole: Result<seq<Message>, Error>,
                      ghost before: set<MessageId>)
      requires Agrees(store, overlay) && Finished(page, trail, whole, before)
      modifies this`next, this`pageSize
      ensures Delivered(page, trail, whole, old(pageSize), before)
    {
      next := page[|page| - 1].parent;
      pageSize := Doubled(pageSize);
    }
  }

  /** All pages put together. */
  function Flatten(pages: seq<seq<Message>>): (r: seq<Message>) {
    if pages == [] then [] else Flatten(pages[..|pages| - 1]) + pages[|pages| - 1]
  }

  /** The size asked for page `k`. */
  function SizeAt(first: nat, k: nat): (r: nat) {
    if k == 0 then first else Doubled(SizeAt(first, k - 1))
  }

  /** Every page but the last is full. */
  predicate FullPages(first: nat, pages: seq<seq<Message>>) {
    forall k | 0 <= k < |pages| - 1 :: |pages[k]| == SizeAt(first, k)
  }

  /** No page is empty, only a final page is short, and `size` is what the next one would ask for. */
  ghost predicate Paged(first: nat, pages: seq<seq<Message>>, size: nat, done: bool) {
    && size == SizeAt(first, |pages|) && FullPages(first, pages) && (forall page | page in pages :: page != [])
    && (pages != [] ==> done || |pages[|pages| - 1]| == SizeAt(first, |pages| - 1))
  }

  lemma PagedOn(first: nat, pages: seq<seq<Message>>, size: nat, page: seq<Message>, done: bool)
    requires Paged(first, pages, size, false) && page != [] && (|page| == size || done)
    ensures Paged(first, pages + [page], Doubled(size), done)
  {
  }

  lemma PrependTwice(whole: Result<seq<Message>, Error>, a: seq<Message>, b: seq<Message>,
                     rest: Result<seq<Message>, Error>)
    requires whole == Prepend(a, Prepend(b, rest))
    ensures whole == Prepend(a + b, rest)
  {
    if rest.Ok? {
      assert a + (b + rest.value) == (a + b) + rest.value;
    }
  }

  lemma PageAdded(whole: Result<seq<Message>, Error>, pages: seq<seq<Message>>, page: seq<Message>,
                  rest: Result<seq<Message>, Error>)
    requires whole == Prepend(Flatten(pages), Prepend(page, rest))
    ensures whole == Prepend(Flatten(pages + [page]), rest)
  {
    assert (pages + [page])[..|pages|] == pages;
    PrependTwice(whole, Flatten(pages), page, rest);
  }

  /** Reads every page until the cursor is exhausted. */
  method ReadPages(cursor: HistoryCursor) returns (r: Result<seq<seq<Message>>, Error>)
    requires cursor.Valid()
    modifies cursor
    ensures r.Ok? ==> old(cursor.Remaining()) == Ok(Flatten(r.value))
    ensures r.Ok? ==> Versions(cursor.store, cursor.overlay, old(cursor.next), Flatten(r.value))
                      && IdAt(old(cursor.next), Flatten(r.value), |Flatten(r.value)|).None?
    ensures r.Err? ==> Stray(cursor.store, cursor.overlay, r.error) || SameFailure(old(cursor.Remaining()), r.error)
    ensures old(cursor.Remaining()).Ok? ==>
              (r.Ok? <==> PagesReadable(cursor.store, cursor.overlay, old(cursor.Ahead()), old(cursor.pageSize)))
    ensures r.Ok? ==> FullPages(old(cursor.pageSize), r.value) && forall page | page in r.value :: page != []
  {
    var pages: seq<seq<Message>> := [];
    ghost var whole, first, trail := cursor.Remaining(), cursor.pageSize, cursor.Ahead();
    while true
      invariant cursor.Valid() && Paged(first, pages, cursor.pageSize, cursor.next.None?)
      invariant whole == Prepend(Flatten(pages), cursor.Remaining())
      invariant whole.Ok? ==>
                  (PagesReadable(cursor.store, cursor.overlay, trail, first)
                   <==> PagesReadable(cursor.store, cursor.overlay, cursor.Ahead(), cursor.pageSize))
      decreases cursor.View().Keys - cursor.visited
    {
      ghost var size, ahead := cursor.pageSize, cursor.Ahead();
      var page := cursor.NextPage();
      if page.Err? {
        return Err(page.error);
      }
      if page.value.None? {
        break;
      }
      PageAdded(whole, pages, page.value.value, cursor.Remaining());
      PagedOn(first, pages, size, page.value.value, cursor.next.None?);
      if whole.Ok? {
        PagesBehind(cursor.store, cursor.overlay, ahead, size, |page.value.value|);
      }
      pages := pages + [page.value.value];
    }
    WalkVersions(cursor.store, cursor.overlay, old(cursor.next), old(cursor.visited), Flatten(pages));
    r := Ok(pages);
  }

  function Pow2(k: nat): (r: nat)
    ensures r > 0
  {
    if k == 0 then 1 else 2 * Pow2(k - 1)
  }

  lemma {:induction false} SizeIsPow2(k: nat)
    ensures SizeAt(1, k) == Shorter(USIZE_MAX, Pow2(k))
  {
    if k > 0 {
      SizeIsPow2(k - 1);
    }
  }

  lemma {:induction false} FullPagesSum(pages: seq<seq<Message>>)
    requires forall k | 0 <= k < |pages| :: |pages[k]| == SizeAt(1, k)
    requires |Flatten(pages)| < USIZE_MAX
    ensures |Flatten(pages)| == Pow2(|pages|) - 1
    decreases |pages|
  {
    if pages != [] {
      SizeIsPow2(|pages| - 1);
      FullPagesSum(pages[..|pages| - 1]);
    }
  }

  /** A walk of N messages takes at most log2(N) + 1 pages. */
  lemma LogarithmicPages(pages: seq<seq<Message>>)
    requires FullPages(1, pages) && (forall page | page in pages :: page != [])
    requires pages != [] && |Flatten(pages)| <= USIZE_MAX
    ensures Pow2(|pages| - 1) <= |Flatten(pages)|
  {
    assert pages[|pages| - 1] in pages;
    FullPagesSum(pages[..|pages| - 1]);
  }

  // A parent that only the overlay has ------------------------------------------

  lemma TwoWalked(view: Store, a: Message, b: Message, seen: set<MessageId>)
    requires a.id != b.id && a.parent == Some(b.id) && b.parent.None? && a.id !in seen && b.id !in seen
    requires a.id in view && b.id in view && view[a.id] == Ok(a) && view[b.id] == Ok(b)
    ensures Walk(view, Some(a.id), seen) == Ok([a, b]) && Trail(view, Some(a.id), seen) == [a.id, b.id]
  {
    assert Walk(view, None, seen + {a.id} + {b.id}) == Ok([]) && Trail(view, None, seen + {a.id} + {b.id}) == [];
    assert Walk(view, Some(b.id), seen + {a.id}) == Ok([b] + []);
    assert Trail(view, Some(b.id), seen + {a.id}) == [b.id] + [];
    assert [a] + ([b] + []) == [a, b] && [a.id] + ([b.id] + []) == [a.id, b.id];
  }

  lemma ThreeWalked(view: Store, x: Message, a: Message, b: Message)
    requires x.id != a.id && x.id != b.id && a.id != b.id
    requires x.parent == Some(a.id) && a.parent == Some(b.id) && b.parent.None?
    requires x.id in view && a.id in view && b.id in view
    requires view[x.id] == Ok(x) && view[a.id] == Ok(a) && view[b.id] == Ok(b)
    ensures Walk(view, Some(x.id), {}) == Ok([x, a, b]) && Trail(view, Some(x.id), {}) == [x.id, a.id, b.id]
  {
    TwoWalked(view, a, b, {} + {x.id});
    assert [x] + [a, b] == [x, a, b] && [x.id] + [a.id, b.id] == [x.id, a.id, b.id];
  }

  /**
   * x and its parent a are stored, a's parent b is only in the overlay. From x the walk succeeds but the second
   * page, of two messages, asks the store for b; from a the pages are [a] and [b] and everything is read.
   */
  lemma OverlayOnlyParent(x: Message, a: Message, b: Message)
    requires x.id != a.id && x.id != b.id && a.id != b.id
    requires x.parent == Some(a.id) && a.parent == Some(b.id) && b.parent.None?
    ensures
      var store, overlay := map[x.id := Ok(x), a.id := Ok(a)], map[b.id := b];
      var view := Merged(store, overlay);
      && Agrees(store, overlay)
      && Walk(view, Some(x.id), {}) == Ok([x, a, b]) && Walk(view, Some(a.id), {}) == Ok([a, b])
      && !PagesReadable(store, overlay, Trail(view, Some(x.id), {}), 1)
      && PagesReadable(store, overlay, Trail(view, Some(a.id), {}), 1)
  {
    var store: Store, overlay := map[x.id := Ok(x), a.id := Ok(a)], map[b.id := b];
    ThreeWalked(Merged(store, overlay), x, a, b);
    TwoWalked(Merged(store, overlay), a, b, {});
    var fromX, fromA := [x.id, a.id, b.id], [a.id, b.id];
    assert fromX[1..] == fromA && fromA[1..] == [b.id];
    assert fromA[1] !in store && fromA[0] !in overlay;
    assert !PageReadable(store, overlay, fromA, 2);
    assert PageReadable(store, overlay, [b.id], 2);
  }

  /** The cursor itself, on these two inputs. */
  method ReadFromBoth(x: Message, a: Message, b: Message)
    returns (fromX: Result<seq<seq<Message>>, Error>, fromA: Result<seq<seq<Message>>, Error>)
    requires x.id != a.id && x.id != b.id && a.id != b.id
    requires x.parent == Some(a.id) && a.parent == Some(b.id) && b.parent.None?
    ensures fromX == Err(MissingMessage(b.id)) && fromA.Ok? && Flatten(fromA.value) == [a, b]
  {
    var store: Store, overlay := map[x.id := Ok(x), a.id := Ok(a)], map[b.id := b];
    OverlayOnlyParent(x, a, b);
    var cursor := new HistoryCursor(store, overlay, Some(x.id));
    fromX := ReadPages(cursor);
    cursor := new HistoryCursor(store, overlay, Some(a.id));
    fromA := ReadPages(cursor);
  }
}
