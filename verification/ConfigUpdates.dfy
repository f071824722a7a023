/**
 * Publishing session configuration. Requests change a session's settings and
 * publish under its lock; a background refresher republishes when the model list
 * changes. Each step is one atomic section; any interleaving is a run.
 */
module ConfigUpdates {
  import opened Types

  type Sid = string
  type Rid = nat

  /** A configuration, identified by the model list and the settings it was rendered from. */
  datatype Config = Config(models: nat, settings: nat)

  datatype Holder = Free | ByRequest(request: Rid) | ByRefresher

  datatype Session = Session(ready: bool, holder: Holder, generation: nat, settings: nat, published: Option<Config>)

  /** A request that has taken the lock; dropping it bumps the generation, unlocks, then notifies. */
  datatype Request =
    | Holding(session: Sid, read: Option<nat>, written: bool)
    | Bumped(session: Sid)
    | Unlocked(session: Sid)

  datatype Current = Nobody | Locked(session: Sid) | Checked(session: Sid)

  datatype Refresher =
    | Idle
    | Draining(left: nat)
    | Collecting(done: set<Sid>, listed: map<Sid, nat>)
    | Listing(listed: map<Sid, nat>)
    | Visiting(listed: map<Sid, nat>, version: nat, current: Current)

  /**
   * `models` is the version of the model list, `unannounced` that its last change has yet to be
   * broadcast; the queue holds whether each pending event is about models or configuration.
   * `failed` are the sessions whose last refresh failed and for which no request has published since.
   */
  datatype World = World(
    models: nat,
    unannounced: bool,
    queue: seq<bool>,
    lagged: bool,
    permit: bool,
    sessions: map<Sid, Session>,
    requests: map<Rid, Request>,
    refresher: Refresher,
    failed: set<Sid>)

  const DRAIN_LIMIT: nat := 256

  datatype Step =
    | AddSession(session: Sid)
    | ChangeModels
    | Broadcast
    | BroadcastOther
    | Overflow
    | Acquire(request: Rid, session: Sid)
    | ChangeSettings(request: Rid)
    | ReadModels(request: Rid)
    | Write(request: Rid)
    | MarkReady(request: Rid)
    | Bump(request: Rid)
    | Unlock(request: Rid)
    | Notify(request: Rid)
    | Wake
    | Receive
    | Drain
    | Collect(session: Sid)
    | FinishCollecting
    | ListModels(ok: bool)
    | TryLock(session: Sid)
    | Check
    | Publish(ok: bool)

  function Listed(refresher: Refresher): (r: map<Sid, nat>) {
    match refresher
    case Collecting(_, listed) => listed
    case Listing(listed) => listed
    case Visiting(listed, _, _) => listed
    case _ => map[]
  }

  predicate HoldsLock(w: World, r: Rid) {
    r in w.requests && w.requests[r].Holding? && w.requests[r].session in w.sessions
  }

  predicate EnvironmentEnabled(w: World, step: Step) {
    match step
    case AddSession(s) => s !in w.sessions
    case Overflow => w.queue != []
    case ChangeModels => true
    case Broadcast => true
    case BroadcastOther => true
    case _ => false
  }

  predicate RequestEnabled(w: World, step: Step) {
    match step
    case Acquire(r, s) => r !in w.requests && s in w.sessions && w.sessions[s].holder == Free
    case ChangeSettings(r) => HoldsLock(w, r) && w.requests[r].read.None?
    case ReadModels(r) => HoldsLock(w, r) && w.requests[r].read.None?
    case Write(r) => HoldsLock(w, r) && w.requests[r].read.Some?
    case MarkReady(r) => HoldsLock(w, r) && w.requests[r].written
    case Bump(r) => HoldsLock(w, r)
    case Unlock(r) => r in w.requests && w.requests[r].Bumped? && w.requests[r].session in w.sessions
    case Notify(r) => r in w.requests && w.requests[r].Unlocked?
    case _ => false
  }

  /** Steps up to reading the model list; they touch no session. */
  predicate GatherEnabled(w: World, step: Step) {
    match step
    case Wake => w.refresher.Idle? && w.permit
    case Receive => w.refresher.Idle? && (w.lagged || w.queue != [])
    case Drain => w.refresher.Draining?
    case Collect(s) => w.refresher.Collecting? && s in w.sessions && s !in w.refresher.done
    case FinishCollecting => w.refresher.Collecting? && w.sessions.Keys <= w.refresher.done
    case ListModels(_) => w.refresher.Listing?
    case _ => false
  }

  /** Steps on one listed session at a time. */
  predicate VisitEnabled(w: World, step: Step) {
    match step
    case TryLock(s) =>
      w.refresher.Visiting? && w.refresher.current.Nobody? && s in w.refresher.listed && s in w.sessions
    case Check => w.refresher.Visiting? && w.refresher.current.Locked?
                  && w.refresher.current.session in w.refresher.listed && w.refresher.current.session in w.sessions
    case Publish(_) =>
      w.refresher.Visiting? && w.refresher.current.Checked? && w.refresher.current.session in w.sessions
    case _ => false
  }

  predicate Enabled(w: World, step: Step) {
    EnvironmentEnabled(w, step) || RequestEnabled(w, step) || GatherEnabled(w, step) || VisitEnabled(w, step)
  }

  function WithSession(w: World, s: Sid, session: Session): (r: World) {
    w.(sessions := w.sessions[s := session])
  }

  function WithRequest(w: World, r: Rid, request: Request): (r': World) {
    w.(requests := w.requests[r := request])
  }

  function EnvironmentStep(w: World, step: Step): (r: World)
    requires EnvironmentEnabled(w, step)
    ensures r.requests == w.requests && r.permit == w.permit
  {
    match step
    case AddSession(s) => WithSession(w, s, Session(false, Free, 0, 0, None))
    case ChangeModels => w.(models := w.models + 1, unannounced := true)
    case Broadcast => w.(unannounced := false, queue := w.queue + [true])
    case BroadcastOther => w.(queue := w.queue + [false])
    case Overflow => w.(queue := w.queue[1..], lagged := true)
  }

  function RequestStep(w: World, step: Step): (w': World)
    requires RequestEnabled(w, step)
  {
    match step
    case Acquire(r, s) =>
      WithSession(WithRequest(w, r, Holding(s, None, false)), s, w.sessions[s].(holder := ByRequest(r)))
    case Notify(r) => w.(requests := w.requests - {r}, permit := true)
    case ReadModels(r) => WithRequest(w, r, w.requests[r].(read := Some(w.models)))
    case ChangeSettings(r) =>
      var s := w.requests[r].session;
      WithSession(w, s, w.sessions[s].(settings := w.sessions[s].settings + 1))
    case Write(r) =>
      var s := w.requests[r].session;
      WithSession(WithRequest(w, r, w.requests[r].(written := true)), s,
                  w.sessions[s].(published := Some(Config(w.requests[r].read.value, w.sessions[s].settings))))
        .(failed := w.failed - {s})
    case MarkReady(r) =>
      var s := w.requests[r].session;
      WithSession(w, s, w.sessions[s].(ready := true))
    case Bump(r) =>
      var s := w.requests[r].session;
      WithSession(WithRequest(w, r, Bumped(s)), s, w.sessions[s].(generation := w.sessions[s].generation + 1))
    case Unlock(r) =>
      var s := w.requests[r].session;
      WithSession(WithRequest(w, r, Unlocked(s)), s, w.sessions[s].(holder := Free))
  }

  function GatherStep(w: World, step: Step): (w': World)
    requires GatherEnabled(w, step)
    ensures w'.sessions == w.sessions && w'.requests == w.requests && w'.models == w.models
  {
    match step
    case Wake => w.(permit := false, refresher := Draining(DRAIN_LIMIT))
    case Receive =>
      if w.lagged then w.(lagged := false, refresher := Draining(DRAIN_LIMIT))
      else w.(queue := w.queue[1..], refresher := if w.queue[0] then Draining(DRAIN_LIMIT) else Idle)
    case Drain =>
      if w.refresher.left == 0 || (!w.lagged && w.queue == []) then w.(refresher := Collecting({}, map[]))
      else if w.lagged then w.(lagged := false, refresher := Draining(w.refresher.left - 1))
      else w.(queue := w.queue[1..], refresher := Draining(w.refresher.left - 1))
    case Collect(s) =>
      var listed := w.refresher.listed;
      w.(refresher := Collecting(w.refresher.done + {s},
                                 if w.sessions[s].ready then listed[s := w.sessions[s].generation] else listed))
    case FinishCollecting =>
      w.(refresher := if w.refresher.listed == map[] then Idle else Listing(w.refresher.listed))
    case ListModels(ok) =>
      if ok then w.(refresher := Visiting(w.refresher.listed, w.models, Nobody))
      else w.(refresher := Idle, failed := w.failed + w.refresher.listed.Keys)
  }

  /** The refresher is done with `s` in this pass and gives its lock back. */
  function Leave(w: World, s: Sid): (r: World)
    requires w.refresher.Visiting? && s in w.sessions
  {
    WithSession(w, s, w.sessions[s].(holder := Free))
      .(refresher := w.refresher.(listed := w.refresher.listed - {s}, current := Nobody))
  }

  function VisitStep(w: World, step: Step): (w': World)
    requires VisitEnabled(w, step)
    ensures w'.requests == w.requests && w'.permit == w.permit
  {
    match step
    case TryLock(s) =>
      if w.sessions[s].holder == Free
      then WithSession(w, s, w.sessions[s].(holder := ByRefresher)).(refresher := w.refresher.(current := Locked(s)))
      else w.(refresher := Visiting(w.refresher.listed - {s}, w.refresher.version, Nobody))
    case Check =>
      var s := w.refresher.current.session;
      if w.sessions[s].generation != w.refresher.listed[s] || !w.sessions[s].ready then Leave(w, s)
      else w.(refresher := w.refresher.(current := Checked(s)))
    case Publish(ok) =>
      var s := w.refresher.current.session;
      if !ok then Leave(w, s).(failed := w.failed + {s}) else
      var config := Config(w.refresher.version, w.sessions[s].settings);
      var published := if w.sessions[s].published != Some(config) then Some(config) else w.sessions[s].published;
      Leave(WithSession(w, s, w.sessions[s].(published := published)), s).(failed := w.failed - {s})
  }

  /** Once every listed session was visited the loop starts over. */
  function Rest(w: World): (r: World) {
    if w.refresher.Visiting? && w.refresher.listed == map[] then w.(refresher := Idle) else w
  }

  function Next(w: World, step: Step): (r: World)
    requires Enabled(w, step)
  {
    if EnvironmentEnabled(w, step) then EnvironmentStep(w, step)
    else if RequestEnabled(w, step) then RequestStep(w, step)
    else if GatherEnabled(w, step) then GatherStep(w, step)
    else Rest(VisitStep(w, step))
  }

  predicate Valid(w: World, steps: seq<Step>)
    decreases |steps|
  {
    steps == [] || (Enabled(w, steps[0]) && Valid(Next(w, steps[0]), steps[1..]))
  }

  function After(w: World, steps: seq<Step>): (r: World)
    requires Valid(w, steps)
    decreases |steps|
  {
    if steps == [] then w else After(Next(w, steps[0]), steps[1..])
  }

  const START: World := World(0, false, [], false, false, map[], map[], Idle, {})

  // What every run keeps ----------------------------------------------------

  /** Some request on `s` has taken the lock and not notified yet. */
  ghost predicate InFlight(w: World, s: Sid) {
    exists r | r in w.requests :: w.requests[r].session == s
  }

  /** A wake-up for `s` is stored, or a request that will send one is under way. */
  ghost predicate WakeDue(w: World, s: Sid) {
    w.permit || InFlight(w, s)
  }

  /** A change of the model list will reach the refresher. */
  predicate ChangePending(w: World) {
    w.unannounced || w.lagged || true in w.queue
  }

  function PublishedModels(session: Session): (r: int) {
    if session.published.Some? then session.published.value.models else -1
  }

  ghost predicate LockInv(w: World, s: Sid)
    requires s in w.sessions
  {
    && (w.sessions[s].holder.ByRequest? ==>
          var r := w.sessions[s].holder.request;
          r in w.requests && w.requests[r].session == s && !w.requests[r].Unlocked?)
    && (forall r | r in w.requests && w.requests[r].session == s && !w.requests[r].Unlocked? ::
          w.sessions[s].holder == ByRequest(r))
    && (w.sessions[s].holder.ByRefresher? <==>
          w.refresher.Visiting? && !w.refresher.current.Nobody? && w.refresher.current.session == s)
  }

  /** What a request read under the lock is at least as new as what is published. */
  ghost predicate ReadInv(w: World, s: Sid)
    requires s in w.sessions
  {
    && PublishedModels(w.sessions[s]) <= w.models
    && (forall r | r in w.requests && w.requests[r].session == s
                   && w.requests[r].Holding? && w.requests[r].read.Some? ::
          PublishedModels(w.sessions[s]) <= w.requests[r].read.value <= w.models)
  }

  /** The request holding `s`, if any, has not bumped the generation yet. */
  predicate BeforeBump(w: World, s: Sid)
    requires s in w.sessions
  {
    var holder := w.sessions[s].holder;
    holder.ByRequest? && holder.request in w.requests && w.requests[holder.request].Holding?
  }

  /** The generation a pass noted either still stands or its change brings a wake-up. */
  ghost predicate GenerationInv(w: World, s: Sid)
    requires s in w.sessions
  {
    s in Listed(w.refresher) ==>
      && Listed(w.refresher)[s] <= w.sessions[s].generation
      && (Listed(w.refresher)[s] != w.sessions[s].generation ==> WakeDue(w, s))
  }

  /** A pass can only move `s` forward: unless a request intervened, nothing newer is published. */
  ghost predicate PassInv(w: World, s: Sid)
    requires s in w.sessions
  {
    w.refresher.Visiting? ==>
      && w.refresher.version <= w.models
      && (w.refresher.version != w.models ==> ChangePending(w))
      && (s in w.refresher.listed && w.refresher.listed[s] == w.sessions[s].generation && !BeforeBump(w, s) ==>
            PublishedModels(w.sessions[s]) <= w.refresher.version)
      && (!w.refresher.current.Nobody? && w.refresher.current.session == s ==> s in w.refresher.listed)
      && (w.refresher.current == Checked(s) ==> w.refresher.listed[s] == w.sessions[s].generation)
  }

  predicate UpToDate(w: World, s: Sid)
    requires s in w.sessions
  {
    w.sessions[s].published == Some(Config(w.models, w.sessions[s].settings))
  }

  /** The pass under way will still look at `s`. */
  predicate WillVisit(w: World, s: Sid) {
    match w.refresher
    case Idle => false
    case Draining(_) => true
    case Collecting(done, listed) => s !in done || s in listed
    case Listing(listed) => s in listed
    case Visiting(listed, _, _) => s in listed
  }

  ghost predicate Attended(w: World, s: Sid)
    requires s in w.sessions
  {
    UpToDate(w, s) || WakeDue(w, s) || ChangePending(w) || s in w.failed || WillVisit(w, s)
  }

  ghost predicate Inv(w: World, s: Sid) {
    s in w.sessions && LockInv(w, s) && ReadInv(w, s) && GenerationInv(w, s) && PassInv(w, s)
    && (w.sessions[s].ready ==> Attended(w, s))
  }

  /** No request or pass can concern a session that does not exist. */
  ghost predicate Known(w: World) {
    && (forall r | r in w.requests :: w.requests[r].session in w.sessions)
    && (forall s | s in Listed(w.refresher) :: s in w.sessions)
    && (w.refresher.Visiting? ==> w.refresher.version <= w.models)
    && (w.refresher.Visiting? && w.refresher.version != w.models ==> ChangePending(w))
    && (w.refresher.Visiting? && !w.refresher.current.Nobody? ==> w.refresher.current.session in w.sessions)
  }

  lemma EnvironmentKeeps(w: World, step: Step, s: Sid)
    requires Inv(w, s) && EnvironmentEnabled(w, step)
    ensures Inv(EnvironmentStep(w, step), s)
    ensures ChangePending(w) ==> ChangePending(EnvironmentStep(w, step))
  {
    var w' := EnvironmentStep(w, step);
    assert w'.requests == w.requests;
    assert InFlight(w, s) ==> InFlight(w', s);
    assert w'.sessions[s] == w.sessions[s];
  }

  lemma RequestLock(w: World, step: Step, s: Sid)
    requires Inv(w, s) && RequestEnabled(w, step)
    ensures LockInv(RequestStep(w, step), s)
  {
  }

  lemma RequestRead(w: World, step: Step, s: Sid)
    requires Inv(w, s) && RequestEnabled(w, step)
    ensures ReadInv(RequestStep(w, step), s)
  {
  }

  lemma RequestGeneration(w: World, step: Step, s: Sid)
    requires Inv(w, s) && RequestEnabled(w, step)
    ensures GenerationInv(RequestStep(w, step), s)
  {
    if WakeDue(w, s) {
      WakeStaysDue(w, step, s);
    }
    if !step.Notify? {
      assert step.request in RequestStep(w, step).requests;
    }
  }

  lemma RequestPass(w: World, step: Step, s: Sid)
    requires Inv(w, s) && RequestEnabled(w, step)
    ensures PassInv(RequestStep(w, step), s)
  {
  }

  lemma RequestAttended(w: World, step: Step, s: Sid)
    requires Inv(w, s) && RequestEnabled(w, step)
    ensures RequestStep(w, step).sessions[s].ready ==> Attended(RequestStep(w, step), s)
  {
    if WakeDue(w, s) {
      WakeStaysDue(w, step, s);
    }
    if !step.Notify? {
      assert step.request in RequestStep(w, step).requests;
    }
  }

  lemma RequestKeeps(w: World, step: Step, s: Sid)
    requires Inv(w, s) && RequestEnabled(w, step)
    ensures Inv(RequestStep(w, step), s)
  {
    RequestLock(w, step, s);
    RequestRead(w, step, s);
    RequestGeneration(w, step, s);
    RequestPass(w, step, s);
    RequestAttended(w, step, s);
  }

  /** Requests on their way stay so until they notify; nothing but waking up takes the permit. */
  lemma RequestsStay(w: World, step: Step, r: Rid)
    requires RequestEnabled(w, step) && r in w.requests && step != Notify(r)
    ensures r in RequestStep(w, step).requests && RequestStep(w, step).requests[r].session == w.requests[r].session
  {
  }

  lemma PermitStays(w: World, step: Step)
    requires RequestEnabled(w, step)
    ensures w.permit || step.Notify? ==> RequestStep(w, step).permit
  {
  }

  lemma GatherPermit(w: World, step: Step)
    requires GatherEnabled(w, step) && step != Wake
    ensures GatherStep(w, step).permit == w.permit
  {
  }

  /** Only the refresher waking up takes a due wake-up away. */
  lemma WakeStaysDue(w: World, step: Step, s: Sid)
    requires WakeDue(w, s) && Enabled(w, step) && step != Wake
    ensures WakeDue(Next(w, step), s)
  {
    if RequestEnabled(w, step) && !EnvironmentEnabled(w, step) {
      PermitStays(w, step);
      if !w.permit && !step.Notify? {
        var r :| r in w.requests && w.requests[r].session == s;
        RequestsStay(w, step, r);
      }
    } else {
      if GatherEnabled(w, step) {
        GatherPermit(w, step);
      }
      assert Next(w, step).requests == w.requests && Next(w, step).permit == w.permit;
    }
  }

  lemma GatherKeeps(w: World, step: Step, s: Sid)
    requires Inv(w, s) && GatherEnabled(w, step)
    ensures Inv(GatherStep(w, step), s)
  {
    assert InFlight(w, s) <==> InFlight(GatherStep(w, step), s);
  }

  /** Leaving a session keeps everything, if that session no longer needs this pass. */
  lemma LeaveKeeps(w: World, t: Sid, s: Sid)
    requires Inv(w, s) && t in w.sessions && w.refresher.Visiting?
    requires !w.refresher.current.Nobody? && w.refresher.current.session == t
    requires s == t && w.sessions[s].ready ==> UpToDate(w, s) || WakeDue(w, s) || ChangePending(w) || s in w.failed
    ensures Inv(Leave(w, t), s)
  {
    var w' := Leave(w, t);
    assert w'.requests == w.requests;
    assert InFlight(w, s) <==> InFlight(w', s);
  }

  lemma TakeKeeps(w: World, t: Sid, s: Sid)
    requires Inv(w, s) && VisitEnabled(w, TryLock(t)) && w.sessions[t].holder == Free
    ensures Inv(VisitStep(w, TryLock(t)), s)
  {
    var w' := VisitStep(w, TryLock(t));
    assert w'.requests == w.requests;
    assert InFlight(w, s) <==> InFlight(w', s);
    assert BeforeBump(w', s) <==> BeforeBump(w, s);
  }

  lemma PassOverKeeps(w: World, t: Sid, s: Sid)
    requires Inv(w, s) && VisitEnabled(w, TryLock(t)) && w.sessions[t].holder != Free
    ensures Inv(VisitStep(w, TryLock(t)), s)
  {
    var w' := VisitStep(w, TryLock(t));
    assert w'.requests == w.requests && w'.sessions == w.sessions;
    assert InFlight(w, s) <==> InFlight(w', s);
    assert s == t ==> InFlight(w, s);
  }

  lemma CheckKeeps(w: World, s: Sid)
    requires Inv(w, s) && VisitEnabled(w, Check)
    ensures Inv(VisitStep(w, Check), s)
  {
    var t := w.refresher.current.session;
    if w.sessions[t].generation != w.refresher.listed[t] || !w.sessions[t].ready {
      LeaveKeeps(w, t, s);
    } else {
      var w' := VisitStep(w, Check);
      assert w'.requests == w.requests && w'.sessions == w.sessions;
      assert InFlight(w, s) <==> InFlight(w', s);
    }
  }

  /** The session as the refresher publishes it, still locked. */
  function Refreshed(w: World, t: Sid): (r: World)
    requires t in w.sessions && w.refresher.Visiting?
  {
    WithSession(w, t, w.sessions[t].(published := Some(Config(w.refresher.version, w.sessions[t].settings))))
      .(failed := w.failed - {t})
  }

  lemma RefreshedKeeps(w: World, s: Sid)
    requires Inv(w, s) && VisitEnabled(w, Publish(true))
    ensures
      var w' := Refreshed(w, w.refresher.current.session);
      Inv(w', s) && (s == w.refresher.current.session ==> UpToDate(w', s) || ChangePending(w'))
  {
    var w' := Refreshed(w, w.refresher.current.session);
    assert w'.requests == w.requests;
    assert InFlight(w, s) <==> InFlight(w', s);
  }

  lemma FailedKeeps(w: World, t: Sid, s: Sid)
    requires Inv(w, s)
    ensures Inv(w.(failed := w.failed + {t}), s)
  {
    assert InFlight(w, s) <==> InFlight(w.(failed := w.failed + {t}), s);
  }

  lemma PublishKeeps(w: World, ok: bool, s: Sid)
    requires Inv(w, s) && VisitEnabled(w, Publish(ok))
    ensures Inv(VisitStep(w, Publish(ok)), s)
  {
    var t := w.refresher.current.session;
    if ok {
      RefreshedKeeps(w, s);
      LeaveKeeps(Refreshed(w, t), t, s);
      assert VisitStep(w, Publish(ok)) == Leave(Refreshed(w, t), t);
    } else {
      FailedKeeps(w, t, s);
      LeaveKeeps(w.(failed := w.failed + {t}), t, s);
    }
  }

  lemma RestKeeps(w: World, s: Sid)
    requires Inv(w, s)
    ensures Inv(Rest(w), s)
  {
    assert InFlight(w, s) <==> InFlight(Rest(w), s);
  }

  lemma VisitKeeps(w: World, step: Step, s: Sid)
    requires Inv(w, s) && VisitEnabled(w, step)
    ensures Inv(VisitStep(w, step), s)
  {
    match step
    case TryLock(t) =>
      if w.sessions[t].holder == Free {
        TakeKeeps(w, t, s);
      } else {
        PassOverKeeps(w, t, s);
      }
    case Check => CheckKeeps(w, s);
    case Publish(ok) => PublishKeeps(w, ok, s);
  }

  lemma StepKeeps(w: World, step: Step, s: Sid)
    requires Inv(w, s) && Enabled(w, step)
    ensures Inv(Next(w, step), s)
  {
    if EnvironmentEnabled(w, step) {
      EnvironmentKeeps(w, step, s);
    } else if RequestEnabled(w, step) {
      RequestKeeps(w, step, s);
    } else if GatherEnabled(w, step) {
      GatherKeeps(w, step, s);
    } else {
      VisitKeeps(w, step, s);
      RestKeeps(VisitStep(w, step), s);
    }
  }

  /** The refresher passes `s` over: its lock is taken, or its generation moved. */
  predicate Skips(w: World, step: Step, s: Sid)
    requires s in w.sessions && VisitEnabled(w, step)
  {
    match step
    case TryLock(t) => t == s && w.sessions[s].holder != Free
    case Check => w.refresher.current == Locked(s) && w.sessions[s].generation != w.refresher.listed[s]
    case _ => false
  }

  /** A session passed over because it was locked or its generation had moved has a wake-up due. */
  lemma SkippedHasWakeDue(w: World, step: Step, s: Sid)
    requires Inv(w, s) && VisitEnabled(w, step) && Skips(w, step, s)
    ensures WakeDue(Next(w, step), s)
  {
    assert WakeDue(w, s);
    WakeStaysDue(w, step, s);
  }

  ghost predicate AllInv(w: World) {
    Known(w) && forall s | s in w.sessions :: Inv(w, s)
  }

  lemma EnvironmentKnown(w: World, step: Step)
    requires Known(w) && EnvironmentEnabled(w, step)
    ensures Known(EnvironmentStep(w, step))
  {
    assert ChangePending(w) ==> ChangePending(EnvironmentStep(w, step));
  }

  lemma RequestKnown(w: World, step: Step)
    requires Known(w) && RequestEnabled(w, step)
    ensures Known(RequestStep(w, step)) && RequestStep(w, step).sessions.Keys == w.sessions.Keys
  {
  }

  lemma GatherKnown(w: World, step: Step)
    requires Known(w) && GatherEnabled(w, step)
    ensures Known(GatherStep(w, step))
  {
  }

  lemma LeaveKnown(w: World, s: Sid)
    requires Known(w) && s in w.sessions && w.refresher.Visiting?
    ensures Known(Leave(w, s)) && Leave(w, s).sessions.Keys == w.sessions.Keys
  {
  }

  lemma TryLockKnown(w: World, t: Sid)
    requires Known(w) && VisitEnabled(w, TryLock(t))
    ensures Known(VisitStep(w, TryLock(t))) && VisitStep(w, TryLock(t)).sessions.Keys == w.sessions.Keys
  {
  }

  lemma CheckKnown(w: World)
    requires Known(w) && VisitEnabled(w, Check)
    ensures Known(VisitStep(w, Check)) && VisitStep(w, Check).sessions.Keys == w.sessions.Keys
  {
    LeaveKnown(w, w.refresher.current.session);
  }

  lemma PublishKnown(w: World, ok: bool)
    requires Known(w) && VisitEnabled(w, Publish(ok))
    ensures Known(VisitStep(w, Publish(ok))) && VisitStep(w, Publish(ok)).sessions.Keys == w.sessions.Keys
  {
    var t := w.refresher.current.session;
    LeaveKnown(if ok then Refreshed(w, t) else w, t);
  }

  lemma VisitKnown(w: World, step: Step)
    requires Known(w) && VisitEnabled(w, step)
    ensures Known(VisitStep(w, step)) && VisitStep(w, step).sessions.Keys == w.sessions.Keys
  {
    match step
    case TryLock(t) => TryLockKnown(w, t);
    case Check => CheckKnown(w);
    case Publish(ok) => PublishKnown(w, ok);
  }

  lemma AddedInv(w: World, s: Sid)
    requires Known(w) && s !in w.sessions
    ensures Inv(EnvironmentStep(w, AddSession(s)), s)
  {
  }

  lemma KnownStep(w: World, step: Step)
    requires Known(w) && Enabled(w, step)
    ensures Known(Next(w, step))
    ensures Next(w, step).sessions.Keys == w.sessions.Keys + (if step.AddSession? then {step.session} else {})
  {
    if EnvironmentEnabled(w, step) {
      EnvironmentKnown(w, step);
    } else if RequestEnabled(w, step) {
      RequestKnown(w, step);
    } else if GatherEnabled(w, step) {
      GatherKnown(w, step);
    } else {
      VisitKnown(w, step);
    }
  }

  lemma InvStep(w: World, step: Step)
    requires AllInv(w) && Enabled(w, step)
    ensures AllInv(Next(w, step))
  {
    KnownStep(w, step);
    forall s | s in Next(w, step).sessions
      ensures Inv(Next(w, step), s)
    {
      if s in w.sessions {
        StepKeeps(w, step, s);
      } else {
        AddedInv(w, s);
      }
    }
  }

  lemma {:induction false} InvRun(w: World, steps: seq<Step>)
    requires AllInv(w) && Valid(w, steps)
    ensures AllInv(After(w, steps))
    decreases |steps|
  {
    if steps != [] {
      InvStep(w, steps[0]);
      InvRun(Next(w, steps[0]), steps[1..]);
    }
  }

  /** No publication replaces a newer one. */
  lemma PublishedStep(w: World, step: Step, s: Sid)
    requires Known(w) && Inv(w, s) && Enabled(w, step)
    ensures s in Next(w, step).sessions && PublishedModels(w.sessions[s]) <= PublishedModels(Next(w, step).sessions[s])
  {
    KnownStep(w, step);
    if EnvironmentEnabled(w, step) {
      assert EnvironmentStep(w, step).sessions[s] == w.sessions[s];
    } else if RequestEnabled(w, step) {
      RequestPublishes(w, step, s);
    } else if VisitEnabled(w, step) {
      VisitPublishes(w, step, s);
    }
  }

  lemma RequestPublishes(w: World, step: Step, s: Sid)
    requires Inv(w, s) && RequestEnabled(w, step)
    ensures PublishedModels(w.sessions[s]) <= PublishedModels(RequestStep(w, step).sessions[s])
  {
  }

  lemma VisitPublishes(w: World, step: Step, s: Sid)
    requires Inv(w, s) && VisitEnabled(w, step)
    ensures s in VisitStep(w, step).sessions
    ensures PublishedModels(w.sessions[s]) <= PublishedModels(VisitStep(w, step).sessions[s])
  {
    if step.Publish? && step.ok && w.refresher.current.session == s {
      assert PublishedModels(w.sessions[s]) <= w.refresher.version;
    } else {
      VisitLeavesPublished(w, step, s);
    }
  }

  lemma LeavePublished(w: World, t: Sid, s: Sid)
    requires s in w.sessions && t in w.sessions && w.refresher.Visiting?
    ensures s in Leave(w, t).sessions && Leave(w, t).sessions[s].published == w.sessions[s].published
  {
  }

  lemma VisitLeavesPublished(w: World, step: Step, s: Sid)
    requires s in w.sessions && VisitEnabled(w, step) && !(step.Publish? && step.ok && w.refresher.current.session == s)
    ensures s in VisitStep(w, step).sessions && VisitStep(w, step).sessions[s].published == w.sessions[s].published
  {
    match step
    case TryLock(t) =>
    case Check => LeavePublished(w, w.refresher.current.session, s);
    case Publish(ok) =>
      var t := w.refresher.current.session;
      LeavePublished(if ok then Refreshed(w, t) else w, t, s);
  }

  /** The model list behind a session's published configuration never goes back. */
  lemma {:induction false} PublishedNeverGoesBack(w: World, steps: seq<Step>, s: Sid)
    requires AllInv(w) && Valid(w, steps) && s in w.sessions
    ensures s in After(w, steps).sessions
    ensures PublishedModels(w.sessions[s]) <= PublishedModels(After(w, steps).sessions[s]) <= After(w, steps).models
    decreases |steps|
  {
    assert Inv(w, s);
    if steps != [] {
      PublishedStep(w, steps[0], s);
      InvStep(w, steps[0]);
      PublishedNeverGoesBack(Next(w, steps[0]), steps[1..], s);
    }
  }

  lemma PublishedMonotone(before: seq<Step>, later: seq<Step>, s: Sid)
    requires Valid(START, before) && Valid(After(START, before), later) && s in After(START, before).sessions
    ensures
      var earlier, now := After(START, before), After(After(START, before), later);
      s in now.sessions && PublishedModels(earlier.sessions[s]) <= PublishedModels(now.sessions[s]) <= now.models
  {
    InvRun(START, before);
    PublishedNeverGoesBack(After(START, before), later, s);
  }

  /** In every reachable state a skipped session has a wake-up due, and it stays due until taken. */
  lemma SkippedIsRevisited(before: seq<Step>, step: Step, later: seq<Step>, s: Sid)
    requires Valid(START, before) && VisitEnabled(After(START, before), step) && s in After(START, before).sessions
    requires Skips(After(START, before), step, s)
    requires Valid(Next(After(START, before), step), later) && Wake !in later
    ensures WakeDue(After(Next(After(START, before), step), later), s)
  {
    InvRun(START, before);
    SkippedHasWakeDue(After(START, before), step, s);
    WakeStaysDueRun(Next(After(START, before), step), later, s);
  }

  lemma {:induction false} WakeStaysDueRun(w: World, steps: seq<Step>, s: Sid)
    requires Valid(w, steps) && Wake !in steps && WakeDue(w, s)
    ensures WakeDue(After(w, steps), s)
    decreases |steps|
  {
    if steps != [] {
      WakeStaysDue(w, steps[0], s);
      WakeStaysDueRun(Next(w, steps[0]), steps[1..], s);
    }
  }

  /**
   * No change is missed: whenever the refresher rests, a ready session's configuration is up to
   * date, or a wake-up or event is on its way, or its last refresh failed.
   */
  lemma NoMissedChange(steps: seq<Step>, s: Sid)
    requires Valid(START, steps) && s in After(START, steps).sessions
    requires After(START, steps).refresher.Idle? && After(START, steps).sessions[s].ready
    ensures
      var w := After(START, steps);
      UpToDate(w, s) || WakeDue(w, s) || ChangePending(w) || s in w.failed
  {
    InvRun(START, steps);
    assert Inv(After(START, steps), s);
  }

  // A failed refresh is not retried ---------------------------------------------

  /** Nothing will wake the refresher. */
  predicate Resting(w: World) {
    w.refresher.Idle? && !w.permit && !w.lagged && true !in w.queue
  }

  /** Steps that neither wake the refresher nor touch a published configuration: its own, and unrelated events. */
  predicate Uneventful(w: World, step: Step) {
    GatherEnabled(w, step) || VisitEnabled(w, step) || step == BroadcastOther || step == ChangeModels
  }

  lemma RestingStep(w: World, step: Step)
    requires Resting(w) && Enabled(w, step) && Uneventful(w, step)
    ensures Resting(Next(w, step)) && Next(w, step).sessions == w.sessions && w.models <= Next(w, step).models
  {
    if step == Receive {
      assert w.queue[0] in w.queue;
    }
  }

  ghost predicate AllUneventful(w: World, steps: seq<Step>)
    requires Valid(w, steps)
    decreases |steps|
  {
    steps == [] || (Uneventful(w, steps[0]) && AllUneventful(Next(w, steps[0]), steps[1..]))
  }

  /**
   * The other half of `NoMissedChange`: with nothing due, no number of further steps of the refresher publishes
   * anything, so a session that is behind the model list stays behind until a request, a model event or a
   * lost event comes along.
   */
  lemma {:induction false} BehindStaysBehind(w: World, steps: seq<Step>, s: Sid)
    requires Resting(w) && Valid(w, steps) && AllUneventful(w, steps)
    requires s in w.sessions && PublishedModels(w.sessions[s]) < w.models
    ensures
      var end := After(w, steps);
      && Resting(end) && end.sessions == w.sessions && PublishedModels(end.sessions[s]) < end.models
      && !UpToDate(end, s)
    decreases |steps|
  {
    if steps != [] {
      RestingStep(w, steps[0]);
      BehindStaysBehind(Next(w, steps[0]), steps[1..], s);
    }
  }
}
