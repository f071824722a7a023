/**
 * The parent graph that sessions share: which messages a history contains, what
 * the recursive queries mean, and when a chain is complete and free of cycles.
 */
module MessageGraph {
  import opened Types
  import opened Database
  import opened History

  /** Every id on the parent chain from `cursor`, a final missing one included. */
  function Ancestry(records: Records, cursor: Option<MessageId>, visited: set<MessageId>): (r: set<MessageId>)
    decreases records.Keys - visited
  {
    if cursor.None? || cursor.value in visited then {}
    else if cursor.value !in records then {cursor.value}
    else {cursor.value} + Ancestry(records, records[cursor.value].message.parent, visited + {cursor.value})
  }

  predicate InHistory(db: Db, s: SessionId, id: MessageId) {
    id in Ancestry(db.records, TipOf(db.sessions, s), {})
  }

  /** The downward query: `d` is `id` itself or a stored message whose parent descends from `id`. */
  predicate Descends(records: Records, d: MessageId, id: MessageId, steps: nat)
    decreases steps
  {
    if steps == 0 then d == id
    else
      && d in records && records[d].message.parent.Some?
      && Descends(records, records[d].message.parent.value, id, steps - 1)
  }

  ghost predicate IsDescendant(records: Records, d: MessageId, id: MessageId) {
    exists steps: nat :: Descends(records, d, id, steps)
  }

  lemma {:induction false} AncestryDescends(records: Records, d: MessageId, visited: set<MessageId>, id: MessageId)
    returns (steps: nat)
    requires id in Ancestry(records, Some(d), visited)
    ensures Descends(records, d, id, steps)
    decreases records.Keys - visited
  {
    if d == id {
      steps := 0;
    } else {
      var rest := AncestryDescends(records, records[d].message.parent.value, visited + {d}, id);
      steps := rest + 1;
    }
  }

  lemma {:induction false} NearestDescends(records: Records, d: MessageId, visited: set<MessageId>, id: MessageId,
                                           steps: nat)
    requires Descends(records, d, id, steps)
    requires forall m: nat | m < steps :: !Descends(records, d, id, m)
    requires forall v, m: nat | v in visited && m <= steps :: !Descends(records, v, id, m)
    ensures id in Ancestry(records, Some(d), visited)
    decreases steps
  {
    assert d !in visited;
    if steps > 0 {
      assert !Descends(records, d, id, 0);
      var parent := records[d].message.parent.value;
      forall m: nat | m < steps - 1
        ensures !Descends(records, parent, id, m)
      {
        assert !Descends(records, d, id, m + 1);
      }
      NearestDescends(records, parent, visited + {d}, id, steps - 1);
    }
  }

  lemma {:induction false} DescendsAncestry(records: Records, d: MessageId, id: MessageId, steps: nat)
    requires Descends(records, d, id, steps)
    ensures id in Ancestry(records, Some(d), {})
    decreases steps
  {
    if m: nat :| m < steps && Descends(records, d, id, m) {
      DescendsAncestry(records, d, id, m);
    } else {
      NearestDescends(records, d, {}, id, steps);
    }
  }

  /** The upward walk and the downward closure see the same sessions, cycles and gaps included. */
  lemma HistoryIsDescent(db: Db, s: SessionId, id: MessageId)
    ensures InHistory(db, s, id) <==>
            TipOf(db.sessions, s).Some? && IsDescendant(db.records, TipOf(db.sessions, s).value, id)
  {
    var tip := TipOf(db.sessions, s);
    if InHistory(db, s, id) {
      var steps := AncestryDescends(db.records, tip.value, {}, id);
      assert Descends(db.records, tip.value, id, steps);
    }
    if tip.Some? && IsDescendant(db.records, tip.value, id) {
      var steps: nat :| Descends(db.records, tip.value, id, steps);
      DescendsAncestry(db.records, tip.value, id, steps);
    }
  }

  /** Reading a message gives the same result in both databases. */
  predicate SameMessage(db: Db, db': Db, id: MessageId) {
    if id in db.records then
      id in db'.records && db'.records[id].message == db.records[id].message && LogOf(db', id) == LogOf(db, id)
    else id !in db'.records
  }

  /** A walk depends only on the messages it can reach. */
  lemma {:induction false} SameWalk(db: Db, db': Db, cursor: Option<MessageId>, visited: set<MessageId>)
    requires forall id | id in Ancestry(db.records, cursor, visited) :: SameMessage(db, db', id)
    ensures Walk(Views(db'), cursor, visited) == Walk(Views(db), cursor, visited)
    ensures Ancestry(db'.records, cursor, visited) == Ancestry(db.records, cursor, visited)
    decreases db.records.Keys - visited
  {
    if cursor.Some? && cursor.value !in visited {
      assert SameMessage(db, db', cursor.value);
      if cursor.value in db.records {
        SameWalk(db, db', db.records[cursor.value].message.parent, visited + {cursor.value});
      }
    }
  }

  lemma SameHistory(db: Db, db': Db, s: SessionId)
    requires TipOf(db'.sessions, s) == TipOf(db.sessions, s)
    requires forall id | InHistory(db, s, id) :: SameMessage(db, db', id)
    ensures HistoryOf(db', s) == HistoryOf(db, s)
    ensures forall id :: InHistory(db', s, id) <==> InHistory(db, s, id)
  {
    SameWalk(db, db', TipOf(db.sessions, s), {});
  }

  /** `chain` lists the parent chain from `cursor` to a root, every message present. */
  predicate IsChain(records: Records, cursor: Option<MessageId>, chain: seq<MessageId>)
    decreases |chain|
  {
    if chain == [] then cursor.None?
    else
      && cursor == Some(chain[0]) && chain[0] in records
      && IsChain(records, records[chain[0]].message.parent, chain[1..])
  }

  ghost predicate Rooted(records: Records, cursor: Option<MessageId>) {
    exists chain :: IsChain(records, cursor, chain)
  }

  /** Every session's chain is complete; being finite, it is also free of cycles. */
  ghost predicate Sound(db: Db) {
    forall s | s in db.sessions :: Rooted(db.records, db.sessions[s].tip)
  }

  lemma {:induction false} ChainUnique(records: Records, cursor: Option<MessageId>, a: seq<MessageId>,
                                       b: seq<MessageId>)
    requires IsChain(records, cursor, a) && IsChain(records, cursor, b)
    ensures a == b
    decreases |a|
  {
    if a != [] {
      ChainUnique(records, records[a[0]].message.parent, a[1..], b[1..]);
      assert a == [a[0]] + a[1..] && b == [b[0]] + b[1..];
    }
  }

  lemma {:induction false} ChainSuffix(records: Records, cursor: Option<MessageId>, chain: seq<MessageId>, i: nat)
    requires IsChain(records, cursor, chain) && i < |chain|
    ensures IsChain(records, Some(chain[i]), chain[i..])
    ensures chain[i] in records && IsChain(records, records[chain[i]].message.parent, chain[i + 1..])
    decreases |chain|
  {
    if i > 0 {
      ChainSuffix(records, records[chain[0]].message.parent, chain[1..], i - 1);
      assert chain[1..][i - 1..] == chain[i..];
    }
    assert chain[i..][1..] == chain[i + 1..];
  }

  /** A message never occurs behind itself. */
  lemma ChainNotBehindItself(records: Records, id: MessageId, chain: seq<MessageId>)
    requires id in records && IsChain(records, records[id].message.parent, chain)
    ensures id !in chain
  {
    if id in chain {
      var i :| 0 <= i < |chain| && chain[i] == id;
      ChainSuffix(records, records[id].message.parent, chain, i);
      ChainUnique(records, records[id].message.parent, chain, chain[i + 1..]);
    }
  }

  /** A complete chain has no cycle. */
  lemma ChainDistinct(records: Records, cursor: Option<MessageId>, chain: seq<MessageId>, i: nat, j: nat)
    requires IsChain(records, cursor, chain) && i < j < |chain|
    ensures chain[i] != chain[j]
  {
    ChainSuffix(records, cursor, chain, i);
    ChainNotBehindItself(records, chain[i], chain[i + 1..]);
    assert chain[j] == chain[i + 1..][j - i - 1];
  }

  lemma {:induction false} ChainFrame(records: Records, records': Records, cursor: Option<MessageId>,
                                      chain: seq<MessageId>)
    requires IsChain(records, cursor, chain)
    requires forall id | id in chain && id in records ::
               id in records' && records'[id].message.parent == records[id].message.parent
    ensures IsChain(records', cursor, chain)
    decreases |chain|
  {
    if chain != [] {
      assert chain[0] in chain;
      ChainFrame(records, records', records[chain[0]].message.parent, chain[1..]);
    }
  }

  /** The chain is what the recursive query collects. */
  lemma {:induction false} ChainIsAncestry(records: Records, cursor: Option<MessageId>, chain: seq<MessageId>,
                                           visited: set<MessageId>)
    requires IsChain(records, cursor, chain)
    requires forall id | id in chain :: id !in visited
    ensures forall id :: id in Ancestry(records, cursor, visited) <==> id in chain
    decreases |chain|
  {
    if chain != [] {
      assert chain[0] in chain;
      ChainNotBehindItself(records, chain[0], chain[1..]);
      ChainIsAncestry(records, records[chain[0]].message.parent, chain[1..], visited + {chain[0]});
      assert chain == [chain[0]] + chain[1..];
    }
  }

  /** A complete chain whose messages can all be read is read in full. */
  lemma {:induction false} ChainIsRead(db: Db, cursor: Option<MessageId>, chain: seq<MessageId>,
                                       visited: set<MessageId>)
    requires IsChain(db.records, cursor, chain)
    requires forall id | id in chain :: id !in visited
    requires forall id | id in chain && id in db.records :: Views(db)[id].Ok? && Views(db)[id].value.id == id
    ensures Walk(Views(db), cursor, visited).Ok?
    ensures |Walk(Views(db), cursor, visited).value| == |chain|
    ensures forall i | 0 <= i < |chain| :: Walk(Views(db), cursor, visited).value[i].id == chain[i]
    decreases |chain|
  {
    if chain != [] {
      assert chain[0] in chain;
      ChainNotBehindItself(db.records, chain[0], chain[1..]);
      ChainIsRead(db, db.records[chain[0]].message.parent, chain[1..], visited + {chain[0]});
    }
  }
}
