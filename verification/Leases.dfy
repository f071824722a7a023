/**
 * Expiring session leases with fencing tokens, shared by any number of runtimes.
 *
 * A runtime reads its token map and commits its SQL in separate moments, so the
 * protocol below lets a renewal or a timer save use any token the process ever
 * remembered, and separates committing a claim from remembering its token.
 */
module Leases {
  import opened Types
  import opened Database

  /** The statements, one transaction each. */

  function EnsureClaimable(sessions: Sessions, s: SessionId, now: int): (r: Result<int, Error>) {
    if s !in sessions then Err(SessionNotFound)
    else if !sessions[s].active || sessions[s].expiresAt < now then Ok(now)
    else Err(AlreadyRunning)
  }

  function LeaseExpiry(now: int, duration: nat): (r: Result<int, Error>) {
    if duration > I64_MAX || now + duration > I64_MAX then Err(ExpiryOverflow) else Ok(now + duration)
  }

  predicate Matches(sessions: Sessions, s: SessionId, expected: int) {
    s in sessions && sessions[s].active && sessions[s].token == expected
  }

  function Claim(sessions: Sessions, s: SessionId, duration: nat, now: int): (r: Result<(Sessions, int), Error>) {
    if duration == 0 then Err(ZeroLease) else
    var at :- EnsureClaimable(sessions, s, now);
    var expiry :- LeaseExpiry(at, duration);
    var row := sessions[s];
    var claimed := row.(active := true, token := row.token + 1, expiresAt := expiry, revision := row.revision + 1);
    Ok((sessions[s := claimed], claimed.token))
  }

  function Renew(sessions: Sessions, s: SessionId, expected: int, duration: nat, now: int)
    : (r: Result<Sessions, Error>)
  {
    var expiry :- LeaseExpiry(now, duration);
    if Matches(sessions, s, expected) then Ok(sessions[s := sessions[s].(expiresAt := expiry)])
    else Err(OwnershipLost)
  }

  function Release(sessions: Sessions, s: SessionId, expected: int, timer: Option<string>): (r: Sessions) {
    if Matches(sessions, s, expected) then
      var row := sessions[s];
      sessions[s := row.(active := false, revision := row.revision + 1,
                         timer := if timer.Some? then timer else row.timer)]
    else sessions
  }

  function SaveTimer(sessions: Sessions, s: SessionId, expected: int, timer: string): (r: Sessions) {
    if Matches(sessions, s, expected) then sessions[s := sessions[s].(timer := Some(timer))] else sessions
  }

  /** The same statements as a process runs them. */

  method ClaimTurnFor(p: Process, s: SessionId, duration: nat, checkedAt: int, now: int) returns (r: Result<(), Error>)
    modifies p, p.shared
    ensures r.Ok? <==>
              && s in old(p.shared.db.sessions)
              && (old(p.shared.db.sessions)[s].active ==>
                    old(p.shared.db.sessions)[s].expiresAt < checkedAt && old(p.shared.db.sessions)[s].expiresAt < now)
              && 0 < duration <= I64_MAX && now + duration <= I64_MAX
    ensures r.Ok? ==>
              && p.shared.db == old(p.shared.db).(sessions := p.shared.db.sessions)
              && p.shared.db.sessions - {s} == old(p.shared.db.sessions) - {s} && s in p.shared.db.sessions
              && var was, row := old(p.shared.db.sessions)[s], p.shared.db.sessions[s];
                 && row.active && row.expiresAt == now + duration && row.token == was.token + 1
                 && row.revision == was.revision + 1 && row.metadataRevision == was.metadataRevision
                 && row.tip == was.tip && row.title == was.title && row.model == was.model && row.timer == was.timer
                 && p.tokens == old(p.tokens)[s := row.token]
    ensures r.Ok? ==> Claim(old(p.shared.db.sessions), s, duration, now) == Ok((p.shared.db.sessions, p.tokens[s]))
    ensures r.Err? ==> p.shared.db == old(p.shared.db) && p.tokens == old(p.tokens)
    ensures duration == 0 ==> r == Err(ZeroLease)
    ensures duration > 0 && s !in old(p.shared.db.sessions) ==> r == Err(SessionNotFound)
    ensures r == Err(AlreadyRunning) <==>
              && duration > 0 && s in old(p.shared.db.sessions) && old(p.shared.db.sessions)[s].active
              && (old(p.shared.db.sessions)[s].expiresAt >= checkedAt || old(p.shared.db.sessions)[s].expiresAt >= now)
    ensures r.Err? ==> r.error in {ZeroLease, SessionNotFound, AlreadyRunning, ExpiryOverflow}
  {
    if duration == 0 {
      return Err(ZeroLease);
    }
    var db := p.shared.db;
    var checked := EnsureClaimable(db.sessions, s, checkedAt);
    if checked.Err? {
      return Err(checked.error);
    }
    var claimable := EnsureClaimable(db.sessions, s, now);
    if claimable.Err? {
      return Err(claimable.error);
    }
    var expiry := LeaseExpiry(claimable.value, duration);
    if expiry.Err? {
      return Err(expiry.error);
    }
    var row := db.sessions[s];
    row := row.(active := true, token := row.token + 1, expiresAt := expiry.value, revision := row.revision + 1);
    p.shared.db := db.(sessions := db.sessions[s := row]);
    p.tokens := p.tokens[s := row.token];
    r := Ok(());
  }

  method RenewTurnOf(p: Process, s: SessionId, duration: nat, now: int) returns (r: Result<(), Error>)
    modifies p.shared
    ensures r.Ok? <==>
              && s in p.tokens && s in old(p.shared.db.sessions) && old(p.shared.db.sessions)[s].active
              && old(p.shared.db.sessions)[s].token == p.tokens[s]
              && duration <= I64_MAX && now + duration <= I64_MAX
    ensures r.Ok? ==>
              p.shared.db == old(p.shared.db).(sessions := old(p.shared.db.sessions)
                                                 [s := old(p.shared.db.sessions)[s].(expiresAt := now + duration)])
    ensures r.Ok? ==> Renew(old(p.shared.db.sessions), s, p.tokens[s], duration, now) == Ok(p.shared.db.sessions)
    ensures r.Err? ==> p.shared.db == old(p.shared.db)
    ensures s !in p.tokens ==> r == Err(NotOwnedHere)
    ensures s in p.tokens && (duration > I64_MAX || now + duration > I64_MAX) ==> r == Err(ExpiryOverflow)
    ensures s in p.tokens && duration <= I64_MAX && now + duration <= I64_MAX && r.Err? ==> r == Err(OwnershipLost)
  {
    if s !in p.tokens {
      return Err(NotOwnedHere);
    }
    var expected, db := p.tokens[s], p.shared.db;
    var expiry := LeaseExpiry(now, duration);
    if expiry.Err? {
      return Err(expiry.error);
    }
    var updated := 0;
    if s in db.sessions && db.sessions[s].active && db.sessions[s].token == expected {
      p.shared.db := db.(sessions := db.sessions[s := db.sessions[s].(expiresAt := expiry.value)]);
      updated := 1;
    }
    r := if updated == 1 then Ok(()) else Err(OwnershipLost);
  }

  method ReleaseTurnOf(p: Process, s: SessionId, timer: Option<string>) returns (released: bool)
    modifies p, p.shared
    ensures p.tokens == old(p.tokens) - {s}
    ensures released <==>
              && s in old(p.tokens) && s in old(p.shared.db.sessions) && old(p.shared.db.sessions)[s].active
              && old(p.shared.db.sessions)[s].token == old(p.tokens)[s]
    ensures s in old(p.tokens) ==>
              p.shared.db.sessions == Release(old(p.shared.db.sessions), s, old(p.tokens)[s], timer)
    ensures !released ==> p.shared.db == old(p.shared.db)
    ensures released ==>
              && p.shared.db == old(p.shared.db).(sessions := p.shared.db.sessions)
              && p.shared.db.sessions - {s} == old(p.shared.db.sessions) - {s} && s in p.shared.db.sessions
              && var was, row := old(p.shared.db.sessions)[s], p.shared.db.sessions[s];
                 && !row.active && row.expiresAt == was.expiresAt && row.token == was.token
                 && row.revision == was.revision + 1 && row.metadataRevision == was.metadataRevision
                 && row.tip == was.tip && row.title == was.title && row.model == was.model
                 && row.timer == if timer.Some? then timer else was.timer
  {
    if s !in p.tokens {
      return false;
    }
    var expected, db := p.tokens[s], p.shared.db;
    p.tokens := p.tokens - {s};
    released := false;
    if s in db.sessions && db.sessions[s].active && db.sessions[s].token == expected {
      var row := db.sessions[s];
      row := row.(active := false, revision := row.revision + 1);
      if timer.Some? {
        row := row.(timer := timer);
      }
      p.shared.db := db.(sessions := db.sessions[s := row]);
      released := true;
    }
  }

  method SaveTurnTimerOf(p: Process, s: SessionId, timer: string)
    modifies p.shared
    ensures
      var sessions := old(p.shared.db.sessions);
      p.shared.db ==
      if s in p.tokens && s in sessions && sessions[s].active && sessions[s].token == p.tokens[s]
      then old(p.shared.db).(sessions := sessions[s := sessions[s].(timer := Some(timer))])
      else old(p.shared.db)
    ensures s in p.tokens ==> p.shared.db.sessions == SaveTimer(old(p.shared.db.sessions), s, p.tokens[s], timer)
  {
    if s in p.tokens {
      var expected, db := p.tokens[s], p.shared.db;
      if s in db.sessions && db.sessions[s].active && db.sessions[s].token == expected {
        p.shared.db := db.(sessions := db.sessions[s := db.sessions[s].(timer := Some(timer))]);
      }
    }
  }

  /**
   * A process sharing the database: its token map, the tokens it ever read from it, and a committed claim
   * not yet remembered.
   */
  datatype Runtime = Runtime(tokens: Tokens, seen: set<(SessionId, int)>, granted: Option<(SessionId, int)>)

  type RuntimeId = nat

  /** `issued` and `used` are history: who received each token, and every session id ever created. */
  datatype World = World(
    sessions: Sessions,
    runtimes: map<RuntimeId, Runtime>,
    now: int,
    issued: map<(SessionId, int), RuntimeId>,
    used: set<SessionId>)

  datatype Step =
    | Tick(to: int)
    | Start(actor: RuntimeId)
    | Create(actor: RuntimeId, s: SessionId, row: SessionRow)
    | CommitClaim(actor: RuntimeId, s: SessionId, duration: nat)
    | RememberClaim(actor: RuntimeId)
    | RenewTurn(actor: RuntimeId, s: SessionId, expected: int, duration: nat)
    | ReleaseTurn(actor: RuntimeId, s: SessionId, timer: Option<string>)
    | SaveTurnTimer(actor: RuntimeId, s: SessionId, expected: int, text: string)
    | GuardedWrite(actor: RuntimeId, s: SessionId, row: SessionRow)
    | DeleteSession(actor: RuntimeId, s: SessionId)

  /** The steps a world allows: the clock does not go back, ids are fresh, one writer per process at a time. */
  predicate Enabled(w: World, step: Step) {
    match step
    case Tick(to) => w.now <= to
    case Start(actor) => true
    case Create(actor, s, row) => Writing(w, actor) && s !in w.used && SameLease(row, FreshRow(None, None, None))
    case RememberClaim(actor) => actor in w.runtimes && w.runtimes[actor].granted.Some?
    case RenewTurn(actor, s, expected, _) => Writing(w, actor) && (s, expected) in w.runtimes[actor].seen
    case SaveTurnTimer(actor, s, expected, _) => Writing(w, actor) && (s, expected) in w.runtimes[actor].seen
    case GuardedWrite(actor, s, row) => Writing(w, actor) && s in w.sessions && SameLease(row, w.sessions[s])
    case CommitClaim(actor, _, _) => Writing(w, actor)
    case ReleaseTurn(actor, _, _) => Writing(w, actor)
    case DeleteSession(actor, _) => Writing(w, actor)
  }

  predicate Writing(w: World, actor: RuntimeId) {
    actor in w.runtimes && w.runtimes[actor].granted.None?
  }

  /** The world after one step; a refused operation changes nothing. */
  function Next(w: World, step: Step): (w': World)
    requires Enabled(w, step)
  {
    match step
    case Tick(to) => w.(now := to)
    case Start(actor) => w.(runtimes := w.runtimes[actor := Runtime(map[], {}, None)])
    case Create(actor, s, row) =>
      if AssertOwner(w.sessions, w.runtimes[actor].tokens, s).Ok?
      then w.(sessions := w.sessions[s := row], used := w.used + {s})
      else w
    case CommitClaim(actor, s, duration) =>
      (match Claim(w.sessions, s, duration, w.now)
       case Err(_) => w
       case Ok((sessions, token)) =>
         w.(sessions := sessions,
            issued := w.issued[(s, token) := actor],
            runtimes := w.runtimes[actor := w.runtimes[actor].(granted := Some((s, token)))]))
    case RememberClaim(actor) =>
      var rt := w.runtimes[actor];
      var (s, token) := rt.granted.value;
      w.(runtimes := w.runtimes[actor := Runtime(rt.tokens[s := token], rt.seen + {(s, token)}, None)])
    case RenewTurn(actor, s, expected, duration) =>
      (match Renew(w.sessions, s, expected, duration, w.now)
       case Err(_) => w
       case Ok(sessions) => w.(sessions := sessions))
    case ReleaseTurn(actor, s, timer) =>
      var rt := w.runtimes[actor];
      if s !in rt.tokens then w else
      w.(sessions := Release(w.sessions, s, rt.tokens[s], timer),
         runtimes := w.runtimes[actor := rt.(tokens := rt.tokens - {s})])
    case SaveTurnTimer(actor, s, expected, text) =>
      w.(sessions := SaveTimer(w.sessions, s, expected, text))
    case GuardedWrite(actor, s, row) =>
      if AssertOwner(w.sessions, w.runtimes[actor].tokens, s).Ok?
      then w.(sessions := w.sessions[s := row])
      else w
    case DeleteSession(actor, s) =>
      if AssertOwner(w.sessions, w.runtimes[actor].tokens, s).Ok?
      then w.(sessions := w.sessions - {s})
      else w
  }

  /** Runs. */

  predicate Valid(w: World, steps: seq<Step>)
    decreases |steps|
  {
    steps == [] || (Enabled(w, steps[0]) && Valid(Next(w, steps[0]), steps[1..]))
  }

  function After(w: World, steps: seq<Step>): (w': World)
    requires Valid(w, steps)
    decreases |steps|
  {
    if steps == [] then w else After(Next(w, steps[0]), steps[1..])
  }

  predicate Initial(w: World) {
    w.sessions == map[] && w.runtimes == map[] && w.issued == map[] && w.used == {}
  }

  /** What every step keeps. */

  predicate Traced(w: World, actor: RuntimeId, s: SessionId, token: int) {
    (s, token) in w.issued && w.issued[(s, token)] == actor
  }

  predicate Knows(w: World, actor: RuntimeId, s: SessionId, token: int) {
    && actor in w.runtimes
    && var rt := w.runtimes[actor];
       TokenOf(rt.tokens, s) == Some(token) || (s, token) in rt.seen || rt.granted == Some((s, token))
  }

  /** Every token a process knows was issued to that process. */
  ghost predicate KnowledgeTraced(w: World) {
    forall a, s, t | Knows(w, a, s, t) :: Traced(w, a, s, t)
  }

  /** Tokens are issued in order, and an active row carries an issued one. */
  ghost predicate RowsTraced(w: World) {
    && (forall s, t | (s, t) in w.issued :: s in w.used && (s in w.sessions ==> t <= w.sessions[s].token))
    && (forall s | s in w.sessions :: s in w.used && (w.sessions[s].active ==> (s, w.sessions[s].token) in w.issued))
  }

  ghost predicate Inv(w: World) {
    KnowledgeTraced(w) && RowsTraced(w)
  }

  /** Issued tokens stay issued to the same process. */
  lemma IssuedKept(w: World, step: Step, a: RuntimeId, s: SessionId, t: int)
    requires RowsTraced(w) && Enabled(w, step) && Traced(w, a, s, t)
    ensures Traced(Next(w, step), a, s, t)
  {
  }

  /** A step teaches a process nothing but the token its own claim just received. */
  lemma KnowledgeGained(w: World, step: Step, a: RuntimeId, s: SessionId, t: int)
    requires Enabled(w, step) && Knows(Next(w, step), a, s, t)
    ensures Knows(w, a, s, t) || Traced(Next(w, step), a, s, t)
  {
    match step
    case RememberClaim(actor) =>
      var (k, token) := w.runtimes[actor].granted.value;
      assert w.runtimes[actor].granted == Some((k, token));
    case _ =>
  }

  lemma InvStep(w: World, step: Step)
    requires Inv(w) && Enabled(w, step)
    ensures Inv(Next(w, step))
  {
    var w' := Next(w, step);
    forall a, s, t | Knows(w', a, s, t)
      ensures Traced(w', a, s, t)
    {
      KnowledgeGained(w, step, a, s, t);
      if Knows(w, a, s, t) {
        IssuedKept(w, step, a, s, t);
      }
    }
    RowsStep(w, step);
  }

  lemma RowsStep(w: World, step: Step)
    requires RowsTraced(w) && Enabled(w, step)
    ensures RowsTraced(Next(w, step))
  {
  }

  lemma {:induction false} InvRun(w: World, steps: seq<Step>)
    requires Inv(w) && Valid(w, steps)
    ensures Inv(After(w, steps))
    decreases |steps|
  {
    if steps != [] {
      InvStep(w, steps[0]);
      InvRun(Next(w, steps[0]), steps[1..]);
    }
  }

  /** The theorems, about every reachable world. */

  predicate Holds(w: World, a: RuntimeId, s: SessionId) {
    && a in w.runtimes && s in w.sessions && w.sessions[s].active
    && TokenOf(w.runtimes[a].tokens, s) == Some(w.sessions[s].token)
  }

  /** In every interleaving, at most one runtime's remembered token matches an active row. */
  lemma AtMostOneOwner(w: World, steps: seq<Step>, a: RuntimeId, b: RuntimeId, s: SessionId)
    requires Initial(w) && Valid(w, steps)
    requires Holds(After(w, steps), a, s) && Holds(After(w, steps), b, s)
    ensures a == b
  {
    InvRun(w, steps);
    var end := After(w, steps);
    assert Knows(end, a, s, end.sessions[s].token) && Knows(end, b, s, end.sessions[s].token);
  }

  /** Who received the lease that is active now. */
  function Owner(w: World, s: SessionId): (a: RuntimeId)
    requires s in w.sessions && (s, w.sessions[s].token) in w.issued
  {
    w.issued[(s, w.sessions[s].token)]
  }

  predicate Acts(step: Step, a: RuntimeId) {
    !step.Tick? && step.actor == a
  }

  /**
   * While another runtime's lease is active, nothing `a` does changes the row: its writes,
   * renewals, releases, timer saves and deletions with tokens it held before are refused or
   * match no row. Only a claim after expiry does, and it takes a new token.
   */
  lemma StaleOwnerIsFenced(w: World, steps: seq<Step>, step: Step, a: RuntimeId, s: SessionId)
    requires Initial(w) && Valid(w, steps) && Enabled(After(w, steps), step) && Acts(step, a)
    requires s in After(w, steps).sessions && After(w, steps).sessions[s].active
    ensures (s, After(w, steps).sessions[s].token) in After(w, steps).issued
    ensures
      var before, after := After(w, steps), Next(After(w, steps), step);
      Owner(before, s) != a ==>
        || (s in after.sessions && after.sessions[s] == before.sessions[s])
        || (step.CommitClaim? && step.s == s && before.sessions[s].expiresAt < before.now
            && s in after.sessions && after.sessions[s].token == before.sessions[s].token + 1)
  {
    InvRun(w, steps);
    var before := After(w, steps);
    var token := before.sessions[s].token;
    if before.issued[(s, token)] != a {
      assert !Knows(before, a, s, token);
    }
  }

  /** No step lowers a token, and a session that leaves never comes back. */
  lemma TokenStep(w: World, step: Step, s: SessionId)
    requires RowsTraced(w) && Enabled(w, step) && s in w.used
    ensures s in Next(w, step).used
    ensures s in Next(w, step).sessions ==> s in w.sessions && w.sessions[s].token <= Next(w, step).sessions[s].token
  {
  }

  lemma {:induction false} TokenRun(w: World, steps: seq<Step>, s: SessionId)
    requires Inv(w) && Valid(w, steps) && s in w.used && s in After(w, steps).sessions
    ensures s in w.sessions && w.sessions[s].token <= After(w, steps).sessions[s].token
    decreases |steps|
  {
    if steps != [] {
      InvStep(w, steps[0]);
      TokenStep(w, steps[0], s);
      TokenRun(Next(w, steps[0]), steps[1..], s);
    }
  }

  predicate ClaimSucceeds(w: World, step: Step) {
    step.CommitClaim? && Claim(w.sessions, step.s, step.duration, w.now).Ok?
  }

  /** Of two successful claims of one session, the later receives the larger token. */
  lemma ClaimsStrictlyIncrease(w: World, prefix: seq<Step>, first: Step, between: seq<Step>, second: Step)
    requires Initial(w) && Valid(w, prefix)
    requires var w1 := After(w, prefix);
             && Enabled(w1, first) && ClaimSucceeds(w1, first)
             && Valid(Next(w1, first), between)
             && var w2 := After(Next(w1, first), between);
                Enabled(w2, second) && ClaimSucceeds(w2, second) && second.s == first.s
    ensures
      var w1 := After(w, prefix);
      var w2 := After(Next(w1, first), between);
      Next(w1, first).sessions[first.s].token < Next(w2, second).sessions[first.s].token
  {
    InvRun(w, prefix);
    var w1 := After(w, prefix);
    InvStep(w1, first);
    TokenRun(Next(w1, first), between, first.s);
  }

  /** A run in which the lease on `s` never expires and `a`, its owner, neither releases nor deletes it. */
  predicate KeptAlive(w: World, steps: seq<Step>, a: RuntimeId, s: SessionId)
    requires Valid(w, steps)
    decreases |steps|
  {
    steps == [] ||
    (&& s in w.sessions && w.now <= w.sessions[s].expiresAt
     && !((steps[0].ReleaseTurn? || steps[0].DeleteSession?) && steps[0].actor == a && steps[0].s == s)
     && KeptAlive(Next(w, steps[0]), steps[1..], a, s))
  }

  /** An unexpired lease is never taken over, whatever the other runtimes do. */
  lemma {:induction false} UnexpiredLeaseIsKept(w: World, steps: seq<Step>, a: RuntimeId, s: SessionId)
    requires Inv(w) && Valid(w, steps) && KeptAlive(w, steps, a, s)
    requires s in w.sessions && w.sessions[s].active && Owner(w, s) == a
    ensures s in After(w, steps).sessions && After(w, steps).sessions[s].active
    ensures After(w, steps).sessions[s].token == w.sessions[s].token
    decreases |steps|
  {
    if steps != [] {
      var w' := Next(w, steps[0]);
      InvStep(w, steps[0]);
      assert s in w'.sessions && w'.sessions[s].active && w'.sessions[s].token == w.sessions[s].token by {
        if !steps[0].Tick? && steps[0].actor != a {
          assert !Knows(w, steps[0].actor, s, w.sessions[s].token);
        }
      }
      IssuedKept(w, steps[0], a, s, w.sessions[s].token);
      UnexpiredLeaseIsKept(w', steps[1..], a, s);
    }
  }

  /** Steps in which `a` neither gives up its lease on `s` nor renews it for less than `duration`. */
  predicate Undisturbed(steps: seq<Step>, a: RuntimeId, s: SessionId, duration: nat) {
    forall i | 0 <= i < |steps| :: Keeps(steps[i], a, s, duration)
  }

  predicate Keeps(step: Step, a: RuntimeId, s: SessionId, duration: nat) {
    && !((step.ReleaseTurn? || step.DeleteSession?) && step.actor == a && step.s == s)
    && (step.RenewTurn? && step.actor == a && step.s == s ==> duration <= step.duration)
  }

  lemma {:induction false} ClockRun(w: World, steps: seq<Step>)
    requires Valid(w, steps)
    ensures w.now <= After(w, steps).now
    decreases |steps|
  {
    if steps != [] {
      ClockRun(Next(w, steps[0]), steps[1..]);
    }
  }

  /** `a` holds the lease on `s` with this token until `deadline` at least. */
  predicate Leased(w: World, a: RuntimeId, s: SessionId, token: int, deadline: int) {
    && s in w.sessions && w.sessions[s].active && w.sessions[s].token == token
    && deadline <= w.sessions[s].expiresAt && Traced(w, a, s, token)
  }

  lemma LeaseStep(w: World, step: Step, a: RuntimeId, s: SessionId, token: int, from: int, duration: nat)
    requires Inv(w) && Enabled(w, step) && Keeps(step, a, s, duration)
    requires Leased(w, a, s, token, from + duration) && from <= w.now <= from + duration
    ensures Leased(Next(w, step), a, s, token, from + duration)
  {
    if Acts(step, a) || step.Tick? {
    } else {
      assert !Knows(w, step.actor, s, token);
    }
  }

  /**
   * A lease granted for `duration` at `from` is its owner's until then: whatever the runtimes do in any
   * order, the row keeps its token, and nobody's claim changes anything.
   */
  lemma {:induction false} LeaseLasts(w: World, steps: seq<Step>, a: RuntimeId, s: SessionId, token: int,
                                      from: int, duration: nat)
    requires Inv(w) && Valid(w, steps) && Undisturbed(steps, a, s, duration)
    requires Leased(w, a, s, token, from + duration) && from <= w.now
    requires After(w, steps).now <= from + duration
    ensures Leased(After(w, steps), a, s, token, from + duration)
    ensures forall b, d :: var claim := CommitClaim(b, s, d);
      Enabled(After(w, steps), claim) ==> Next(After(w, steps), claim) == After(w, steps)
    decreases |steps|
  {
    if steps != [] {
      var w' := Next(w, steps[0]);
      ClockRun(w, steps);
      InvStep(w, steps[0]);
      LeaseStep(w, steps[0], a, s, token, from, duration);
      assert Undisturbed(steps[1..], a, s, duration);
      LeaseLasts(w', steps[1..], a, s, token, from, duration);
    }
  }

  /** When a claim commits, and what it gives. */
  lemma ClaimCommits(w: World, a: RuntimeId, s: SessionId, duration: nat)
    requires Inv(w) && Enabled(w, CommitClaim(a, s, duration))
    ensures
      var w' := Next(w, CommitClaim(a, s, duration));
      && (w' != w <==>
            && s in w.sessions && (w.sessions[s].active ==> w.sessions[s].expiresAt < w.now)
            && 0 < duration <= I64_MAX && w.now + duration <= I64_MAX)
      && (w' != w ==>
            && w'.now == w.now && Leased(w', a, s, w.sessions[s].token + 1, w.now + duration)
            && Enabled(w', RememberClaim(a)) && Holds(Next(w', RememberClaim(a)), a, s))
  {
  }

  /** How long what a claim grants lasts. */
  lemma GrantedLeaseLasts(w: World, prefix: seq<Step>, a: RuntimeId, s: SessionId, duration: nat, steps: seq<Step>)
    requires Initial(w) && Valid(w, prefix) && Enabled(After(w, prefix), CommitClaim(a, s, duration))
    requires var w1 := After(w, prefix); Valid(Next(w1, CommitClaim(a, s, duration)), steps)
    ensures
      var w1 := After(w, prefix);
      var w2 := Next(w1, CommitClaim(a, s, duration));
      w2 != w1 && Undisturbed(steps, a, s, duration) && After(w2, steps).now <= w1.now + duration ==>
        && s in w1.sessions && Leased(After(w2, steps), a, s, w1.sessions[s].token + 1, w1.now + duration)
        && forall b, d :: var claim := CommitClaim(b, s, d);
             Enabled(After(w2, steps), claim) ==> Next(After(w2, steps), claim) == After(w2, steps)
  {
    var w1 := After(w, prefix);
    var w2 := Next(w1, CommitClaim(a, s, duration));
    InvRun(w, prefix);
    InvStep(w1, CommitClaim(a, s, duration));
    ClaimCommits(w1, a, s, duration);
    if w2 != w1 && Undisturbed(steps, a, s, duration) && After(w2, steps).now <= w1.now + duration {
      LeaseLasts(w2, steps, a, s, w1.sessions[s].token + 1, w1.now, duration);
    }
  }

  /** The same for a renewal: with the token of the active row it moves the expiry, and otherwise does nothing. */
  lemma RenewedLeaseLasts(w: World, prefix: seq<Step>, a: RuntimeId, s: SessionId, token: int, duration: nat,
                          steps: seq<Step>)
    requires Initial(w) && Valid(w, prefix) && Enabled(After(w, prefix), RenewTurn(a, s, token, duration))
    requires var w1 := After(w, prefix); Valid(Next(w1, RenewTurn(a, s, token, duration)), steps)
    ensures
      var w1 := After(w, prefix);
      var w2 := Next(w1, RenewTurn(a, s, token, duration));
      if && s in w1.sessions && w1.sessions[s].active && w1.sessions[s].token == token
         && duration <= I64_MAX && w1.now + duration <= I64_MAX
      then && s in w2.sessions && w2.sessions[s].expiresAt == w1.now + duration
           && (Undisturbed(steps, a, s, duration) && After(w2, steps).now <= w1.now + duration ==>
                 Leased(After(w2, steps), a, s, token, w1.now + duration))
      else w2 == w1
  {
    var w1 := After(w, prefix);
    var w2 := Next(w1, RenewTurn(a, s, token, duration));
    InvRun(w, prefix);
    InvStep(w1, RenewTurn(a, s, token, duration));
    if && s in w1.sessions && w1.sessions[s].active && w1.sessions[s].token == token
       && duration <= I64_MAX && w1.now + duration <= I64_MAX {
      assert Knows(w1, a, s, token);
      if Undisturbed(steps, a, s, duration) && After(w2, steps).now <= w1.now + duration {
        LeaseLasts(w2, steps, a, s, token, w1.now, duration);
      }
    }
  }

  /** What the holder releases, any runtime may claim at once. */
  lemma ReleasedIsClaimable(w: World, a: RuntimeId, s: SessionId, timer: Option<string>, b: RuntimeId, duration: nat)
    requires Holds(w, a, s) && Writing(w, a) && Writing(w, b)
    requires 0 < duration <= I64_MAX && w.now + duration <= I64_MAX
    ensures
      var w1 := Next(w, ReleaseTurn(a, s, timer));
      && !Holds(w1, a, s) && Enabled(w1, CommitClaim(b, s, duration))
      && var w2 := Next(w1, CommitClaim(b, s, duration));
         && Enabled(w2, RememberClaim(b)) && Holds(Next(w2, RememberClaim(b)), b, s)
         && w2.sessions[s].token == w.sessions[s].token + 1
  {
  }

  /** The holder of a lease may write the row, save a timer in it and delete the session. */
  lemma HolderMayWrite(w: World, a: RuntimeId, s: SessionId, row: SessionRow, text: string)
    requires Holds(w, a, s) && Writing(w, a) && SameLease(row, w.sessions[s])
    ensures Next(w, GuardedWrite(a, s, row)).sessions == w.sessions[s := row]
    ensures Next(w, DeleteSession(a, s)).sessions == w.sessions - {s}
    ensures (s, w.sessions[s].token) in w.runtimes[a].seen ==>
              Next(w, SaveTurnTimer(a, s, w.sessions[s].token, text)).sessions
              == w.sessions[s := w.sessions[s].(timer := Some(text))]
  {
  }
}
