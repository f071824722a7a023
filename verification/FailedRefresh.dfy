/** A run in which a change of the model list is missed, because reading the list failed and nothing retries it. */
module FailedRefresh {
  import opened Types
  import opened ConfigUpdates

  ghost predicate Leads(w: World, steps: seq<Step>, end: World) {
    Valid(w, steps) && After(w, steps) == end
  }

  predicate Goes(w: World, step: Step, w': World) {
    Enabled(w, step) && Next(w, step) == w'
  }

  lemma Onto(w: World, step: Step, w': World, rest: seq<Step>, end: World)
    requires Goes(w, step, w') && Leads(w', rest, end)
    ensures Leads(w, [step] + rest, end)
  {
    assert ([step] + rest)[1..] == rest;
  }

  /** One session without pending events; `models` is the version of the model list. */
  function One(s: Sid, session: Session, requests: map<Rid, Request>, models: nat, refresher: Refresher): (w: World) {
    World(models, false, [], false, false, map[s := session], requests, refresher, {})
  }

  /** A session whose first configuration has been published. */
  function Published(): (r: Session) {
    Session(true, Free, 1, 0, Some(Config(0, 0)))
  }

  function Requesting(s: Sid, read: Option<nat>): (w: World) {
    One(s, Session(false, ByRequest(0), 0, 0, None), map[0 := Holding(s, read, false)], 0, Idle)
  }

  function Written(s: Sid, ready: bool): (w: World) {
    One(s, Session(ready, ByRequest(0), 0, 0, Some(Config(0, 0))), map[0 := Holding(s, Some(0), true)], 0, Idle)
  }

  lemma RequestBegins(s: Sid)
    ensures
      var added := One(s, Session(false, Free, 0, 0, None), map[], 0, Idle);
      && Goes(START, AddSession(s), added) && Goes(added, Acquire(0, s), Requesting(s, None))
  {
  }

  lemma RequestPublishes(s: Sid)
    ensures Goes(Requesting(s, None), ReadModels(0), Requesting(s, Some(0)))
    ensures Goes(Requesting(s, Some(0)), Write(0), Written(s, false))
    ensures Goes(Written(s, false), MarkReady(0), Written(s, true))
  {
  }

  lemma RequestEnds(s: Sid)
    ensures
      var bumped := One(s, Published().(holder := ByRequest(0)), map[0 := Bumped(s)], 0, Idle);
      var unlocked := One(s, Published(), map[0 := Unlocked(s)], 0, Idle);
      && Goes(Written(s, true), Bump(0), bumped) && Goes(bumped, Unlock(0), unlocked)
      && Goes(unlocked, Notify(0), One(s, Published(), map[], 0, Idle).(permit := true))
  {
  }

  lemma ChangeArrives(s: Sid)
    ensures
      var published := One(s, Published(), map[], 0, Idle).(permit := true);
      var changed := published.(models := 1, unannounced := true);
      var sent := published.(models := 1, queue := [true]);
      && Goes(published, ChangeModels, changed) && Goes(changed, Broadcast, sent)
      && Goes(sent, Wake, sent.(permit := false, refresher := Draining(256)))
      && Goes(sent.(permit := false, refresher := Draining(256)), Drain, One(s, Published(), map[], 1, Draining(255)))
  {
  }

  lemma RefreshFails(s: Sid)
    ensures
      var collecting := One(s, Published(), map[], 1, Collecting({}, map[]));
      var collected := One(s, Published(), map[], 1, Collecting({s}, map[s := 1]));
      var listing := One(s, Published(), map[], 1, Listing(map[s := 1]));
      && Goes(One(s, Published(), map[], 1, Draining(255)), Drain, collecting)
      && Goes(collecting, Collect(s), collected) && Goes(collected, FinishCollecting, listing)
      && Goes(listing, ListModels(false), One(s, Published(), map[], 1, Idle).(failed := {s}))
  {
    assert {} + {s} == {s} && map[s := 1].Keys == {s};
    assert s in map[s := 1];
  }

  lemma RefreshRun(s: Sid) returns (steps: seq<Step>)
    ensures Leads(One(s, Published(), map[], 0, Idle).(permit := true), steps,
                  One(s, Published(), map[], 1, Idle).(failed := {s}))
  {
    ChangeArrives(s);
    RefreshFails(s);
    var end := One(s, Published(), map[], 1, Idle).(failed := {s});
    var published := One(s, Published(), map[], 0, Idle).(permit := true);
    var sent := published.(models := 1, queue := [true]);
    assert Leads(end, [], end);
    steps := [ListModels(false)] + [];
    Onto(One(s, Published(), map[], 1, Listing(map[s := 1])), ListModels(false), end, [], end);
    Onto(One(s, Published(), map[], 1, Collecting({s}, map[s := 1])), FinishCollecting,
         One(s, Published(), map[], 1, Listing(map[s := 1])), steps, end);
    steps := [FinishCollecting] + steps;
    Onto(One(s, Published(), map[], 1, Collecting({}, map[])), Collect(s),
         One(s, Published(), map[], 1, Collecting({s}, map[s := 1])), steps, end);
    steps := [Collect(s)] + steps;
    Onto(One(s, Published(), map[], 1, Draining(255)), Drain, One(s, Published(), map[], 1, Collecting({}, map[])),
         steps, end);
    steps := [Drain] + steps;
    Onto(sent.(permit := false, refresher := Draining(256)), Drain, One(s, Published(), map[], 1, Draining(255)), steps,
         end);
    steps := [Drain] + steps;
    Onto(sent, Wake, sent.(permit := false, refresher := Draining(256)), steps, end);
    steps := [Wake] + steps;
    Onto(published.(models := 1, unannounced := true), Broadcast, sent, steps, end);
    steps := [Broadcast] + steps;
    Onto(published, ChangeModels, published.(models := 1, unannounced := true), steps, end);
    steps := [ChangeModels] + steps;
  }

  /**
   * A request publishes, the model list changes, and the refresher, woken for it, cannot read the list. The run
   * ends at rest with a ready session that is behind the model list and nothing due.
   */
  lemma FailedRefreshIsNotRetried(s: Sid) returns (steps: seq<Step>)
    ensures Valid(START, steps)
    ensures
      var w := After(START, steps);
      && Resting(w) && !WakeDue(w, s) && !ChangePending(w) && s in w.failed
      && s in w.sessions && w.sessions[s].ready && PublishedModels(w.sessions[s]) < w.models
  {
    RequestBegins(s);
    RequestPublishes(s);
    RequestEnds(s);
    steps := RefreshRun(s);
    var end := One(s, Published(), map[], 1, Idle).(failed := {s});
    var bumped := One(s, Published().(holder := ByRequest(0)), map[0 := Bumped(s)], 0, Idle);
    var unlocked := One(s, Published(), map[0 := Unlocked(s)], 0, Idle);
    Onto(unlocked, Notify(0), One(s, Published(), map[], 0, Idle).(permit := true), steps, end);
    steps := [Notify(0)] + steps;
    Onto(bumped, Unlock(0), unlocked, steps, end);
    steps := [Unlock(0)] + steps;
    Onto(Written(s, true), Bump(0), bumped, steps, end);
    steps := [Bump(0)] + steps;
    Onto(Written(s, false), MarkReady(0), Written(s, true), steps, end);
    steps := [MarkReady(0)] + steps;
    Onto(Requesting(s, Some(0)), Write(0), Written(s, false), steps, end);
    steps := [Write(0)] + steps;
    Onto(Requesting(s, None), ReadModels(0), Requesting(s, Some(0)), steps, end);
    steps := [ReadModels(0)] + steps;
    Onto(One(s, Session(false, Free, 0, 0, None), map[], 0, Idle), Acquire(0, s), Requesting(s, None), steps, end);
    steps := [Acquire(0, s)] + steps;
    Onto(START, AddSession(s), One(s, Session(false, Free, 0, 0, None), map[], 0, Idle), steps, end);
    steps := [AddSession(s)] + steps;
  }
}
