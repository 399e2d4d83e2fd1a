/** The lifecycle under optimistic locking: no update is ever lost, whoever calls. */
module History {
  import opened Basics
  import opened IdempotencyKeys
  import opened Lifecycle
  import opened ClaimSystem
  import Frames
  import opened Registry
  import Runs

  /** The statuses a claim has been through. */
  function Walk(history: seq<Change>): seq<Status> {
    seq(|history|, n requires 0 <= n < |history| => history[n].status)
  }

  /** The row is the latest entry of the history, and its version counts the entries before it. */
  predicate Current(row: Row, history: seq<Change>) {
    history != [] && row.version == |history| - 1 && row.status == history[|history| - 1].status
  }

  /** What a thread read before its update: that version really had that status. */
  predicate Captured(history: seq<Change>, seen: Status, version: nat, target: Status) {
    version < |history| && history[version].status == seen && Allowed(seen, target)
  }

  predicate ReadersCaptured(s: State, id: ClaimId)
    requires id in s.log.history
  {
    && (forall n | 0 <= n < |s.workers| && s.workers[n].at.Swap? && s.workers[n].at.id == id ::
          Captured(s.log.history[id], s.workers[n].at.seen, s.workers[n].at.version, Target(id, s.workers[n].at.stage)))
    && (forall n | 0 <= n < |s.updaters| && s.updaters[n].id == id && s.updaters[n].at.Swapping? ::
          Captured(s.log.history[id], s.updaters[n].at.seen, s.updaters[n].at.version, s.updaters[n].target))
  }

  predicate Chronicled(s: State, id: ClaimId) {
    if id in s.log.history then
      && IsPath(Walk(s.log.history[id]))
      && (id in s.db.rows ==> Current(s.db.rows[id], s.log.history[id]))
      && ReadersCaptured(s, id)
    else
      && (forall n | 0 <= n < |s.workers| :: !(s.workers[n].at.Swap? && s.workers[n].at.id == id))
      && (forall n | 0 <= n < |s.updaters| :: !(s.updaters[n].at.Swapping? && s.updaters[n].id == id))
  }

  /** A matching compare-and-set extends the walk by an allowed step; any other changes nothing. */
  lemma CasExtends(s: State, id: ClaimId, seen: Status, version: nat, target: Status, author: Author)
    requires id in s.log.history && IsPath(Walk(s.log.history[id]))
    requires id in s.db.rows ==> Current(s.db.rows[id], s.log.history[id])
    requires Captured(s.log.history[id], seen, version, target)
    ensures var h, h' := s.log.history[id], CasHistory(s, id, version, Change(target, author))[id];
            && h <= h' && IsPath(Walk(h'))
            && (id in s.db.rows ==> Current(CasRows(s.db.rows, id, version, target)[id], h'))
            && h' == if Matches(s.db.rows, id, version) then h + [Change(target, author)] else h
  {
    var h := s.log.history[id];
    if Matches(s.db.rows, id, version) {
      assert Walk(h + [Change(target, author)]) == Walk(h) + [target];
      assert Walk(h)[|h| - 1] == seen;
    }
  }

  lemma CreateChronicled(s: State, i: nat, o: Outcome, uuid: ClaimId, id: ClaimId)
    requires Registered(s) && Chronicled(s, id) && Enabled(s, Create(i, o, uuid))
    ensures Chronicled(CreateStep(s, i, o, uuid), id)
  {
    Frames.CreateFrames(s, i, o, uuid);
    var c := s.creators[i];
    assert Placed(s, c);
    if Inserts(c, o) && c.claim.value == id {
      assert Walk([Change(Pending, ByCreator(i))]) == [Pending];
    }
  }

  /** What the swapping worker, or any other thread, leaves of this claim's table entry. */
  lemma WorkExtends(s: State, w: nat, o: Outcome, id: ClaimId)
    requires Chronicled(s, id) && w < |s.workers|
    ensures var t := WorkStep(s, w, o);
            && (id in s.log.history <==> id in t.log.history)
            && (id in s.log.history ==> s.log.history[id] <= t.log.history[id] && IsPath(Walk(t.log.history[id])))
            && (id in s.log.history && id in s.db.rows ==>
                  id in t.db.rows && Current(t.db.rows[id], t.log.history[id]))
  {
    var x := s.workers[w];
    if x.at.Swap? && x.at.id == id && id in s.log.history {
      CasExtends(s, id, x.at.seen, x.at.version, Target(id, x.at.stage), ByRun(x.run));
    } else if id in s.log.history {
      OthersUntouched(s, x, o, id);
    }
  }

  lemma OthersUntouched(s: State, x: Worker, o: Outcome, id: ClaimId)
    requires id in s.log.history && !(x.at.Swap? && x.at.id == id)
    ensures id in HistoryAfterWork(s, x, o) && HistoryAfterWork(s, x, o)[id] == s.log.history[id]
    ensures id in s.db.rows ==>
              id in RowsAfterWork(s.db.rows, x, o) && RowsAfterWork(s.db.rows, x, o)[id] == s.db.rows[id]
  {
  }

  /** A worker that is about to update has just read the current row. */
  lemma WorkCaptures(s: State, x: Worker, o: Outcome, id: ClaimId)
    requires Chronicled(s, id) && id in s.log.history && (id in s.db.rows ==> id in s.log.history)
    requires NextWorkAt(s, x, o).Swap? && NextWorkAt(s, x, o).id == id
    ensures var at := NextWorkAt(s, x, o); Captured(s.log.history[id], at.seen, at.version, Target(id, at.stage))
  {
  }

  lemma WorkChronicled(s: State, w: nat, o: Outcome, id: ClaimId)
    requires RowsOwned(s) && Chronicled(s, id) && w < |s.workers|
    ensures Chronicled(WorkStep(s, w, o), id)
  {
    var t := WorkStep(s, w, o);
    Frames.WorkFrames(s, w, o);
    WorkExtends(s, w, o, id);
    if NextWorkAt(s, s.workers[w], o).Swap? && NextWorkAt(s, s.workers[w], o).id == id {
      WorkCapturesOnlyKnown(s, s.workers[w], o);
      WorkCaptures(s, s.workers[w], o, id);
    }
    if id in s.log.history {
      ReadersStayCaptured(s, t, id, w);
    }
  }

  lemma WorkCapturesOnlyKnown(s: State, x: Worker, o: Outcome)
    requires NextWorkAt(s, x, o).Swap?
    ensures x.at.Read? && NextWorkAt(s, x, o).id in s.db.rows
  {
  }

  /** Readers other than the one that moved saw versions that are still on record. */
  lemma ReadersStayCaptured(s: State, t: State, id: ClaimId, w: nat)
    requires id in s.log.history && id in t.log.history && ReadersCaptured(s, id)
      && s.log.history[id] <= t.log.history[id]
    requires t.updaters == s.updaters && w < |s.workers| && |t.workers| == |s.workers|
    requires forall n | 0 <= n < |s.workers| && n != w :: t.workers[n] == s.workers[n]
    requires t.workers[w].at.Swap? && t.workers[w].at.id == id ==>
               Captured(s.log.history[id], t.workers[w].at.seen, t.workers[w].at.version,
                        Target(id, t.workers[w].at.stage))
    ensures ReadersCaptured(t, id)
  {
  }

  lemma UpdateChronicled(s: State, u: nat, o: Outcome, id: ClaimId)
    requires RowsOwned(s) && Chronicled(s, id) && u < |s.updaters|
    ensures Chronicled(UpdateStep(s, u, o), id)
  {
    Frames.UpdateFrames(s, u, o);
    var x := s.updaters[u];
    if x.at.Swapping? && x.id == id && id in s.log.history {
      CasExtends(s, id, x.at.seen, x.at.version, x.target, ByUpdater(u));
    }
  }

  lemma StepChronicled(s: State, a: Action, id: ClaimId)
    requires Registered(s) && Chronicled(s, id)
    ensures Chronicled(Step(s, a), id)
  {
    if Enabled(s, a) {
      if a.Create? {
        CreateChronicled(s, a.creator, a.outcome, a.uuid, id);
      } else if a.Work? {
        WorkChronicled(s, a.worker, a.outcome, id);
      } else if a.Update? {
        UpdateChronicled(s, a.updater, a.outcome, id);
      } else {
        Frames.OtherFrames(s, a);
        Frames.OtherLedger(s, a);
        IdleChronicled(s, Step(s, a), id);
      }
    }
  }

  /** Steps that change no row, and after which only threads that were updating before still are. */
  lemma IdleChronicled(s: State, t: State, id: ClaimId)
    requires Chronicled(s, id) && t.log.history == s.log.history && t.db.rows == s.db.rows
    requires forall n | 0 <= n < |t.workers| ::
               (n < |s.workers| && t.workers[n].at == s.workers[n].at) || !t.workers[n].at.Swap?
    requires forall n | 0 <= n < |t.updaters| ::
               (n < |s.updaters| && t.updaters[n] == s.updaters[n]) || t.updaters[n].at.Reading?
    ensures Chronicled(t, id)
  {
  }

  lemma {:induction false} AlwaysChronicled(limit: nat, actions: seq<Action>, id: ClaimId)
    ensures Chronicled(Run(Init(limit), actions), id)
  {
    if actions != [] {
      var front := actions[..|actions| - 1];
      AlwaysChronicled(limit, front, id);
      AlwaysRegistered(limit, front);
      StepChronicled(Run(Init(limit), front), actions[|actions| - 1], id);
    }
  }

  /** For any callers with any targets: a claim's statuses form a walk through the transition
      table, its version is the number of steps taken and at most three, and a terminal status
      is its last. */
  lemma NoLostUpdates(s: State, id: ClaimId)
    requires Reachable(s) && id in s.db.rows
    ensures && id in s.log.history && IsPath(Walk(s.log.history[id]))
            && s.db.rows[id].version == |s.log.history[id]| - 1 <= 3
            && s.db.rows[id].status == Walk(s.log.history[id])[s.db.rows[id].version]
            && forall n | 0 <= n < |s.log.history[id]| && Terminal(s.log.history[id][n].status) ::
                 n == s.db.rows[id].version
  {
    var limit, actions :| s == Run(Init(limit), actions);
    AlwaysChronicled(limit, actions, id);
    AlwaysRegistered(limit, actions);
    var h := s.log.history[id];
    PathsAreShort(Walk(h));
    forall n | 0 <= n < |h| && Terminal(h[n].status) ensures n == |h| - 1 {
      assert Terminal(Walk(h)[n]);
    }
  }

  /** Nothing on record is ever rewritten. */
  predicate Remembers(s: State, t: State) {
    forall id | id in s.log.history :: id in t.log.history && s.log.history[id] <= t.log.history[id]
  }

  lemma CasRemembers(s: State, id: ClaimId, version: nat, change: Change, other: ClaimId)
    requires other in s.log.history
    ensures other in CasHistory(s, id, version, change)
            && s.log.history[other] <= CasHistory(s, id, version, change)[other]
  {
  }

  lemma CreateRemembers(s: State, i: nat, o: Outcome, uuid: ClaimId)
    requires Registered(s) && i < |s.creators|
    ensures Remembers(s, CreateStep(s, i, o, uuid))
  {
    assert Placed(s, s.creators[i]);
  }

  lemma WorkRemembers(s: State, w: nat, o: Outcome)
    requires w < |s.workers|
    ensures Remembers(s, WorkStep(s, w, o))
  {
    var x := s.workers[w];
    forall id | id in s.log.history
      ensures id in HistoryAfterWork(s, x, o) && s.log.history[id] <= HistoryAfterWork(s, x, o)[id]
    {
      if x.at.Swap? {
        CasRemembers(s, x.at.id, x.at.version, Change(Target(x.at.id, x.at.stage), ByRun(x.run)), id);
      }
    }
  }

  lemma UpdateRemembers(s: State, u: nat, o: Outcome)
    requires u < |s.updaters|
    ensures Remembers(s, UpdateStep(s, u, o))
  {
    var x := s.updaters[u];
    if x.at.Swapping? {
      forall id | id in s.log.history
        ensures var h := CasHistory(s, x.id, x.at.version, Change(x.target, ByUpdater(u)));
                id in h && s.log.history[id] <= h[id]
      {
        CasRemembers(s, x.id, x.at.version, Change(x.target, ByUpdater(u)), id);
      }
    }
  }

  lemma StepRemembers(s: State, a: Action)
    requires Registered(s)
    ensures Remembers(s, Step(s, a))
  {
    if Enabled(s, a) {
      if a.Create? {
        CreateRemembers(s, a.creator, a.outcome, a.uuid);
      } else if a.Work? {
        WorkRemembers(s, a.worker, a.outcome);
      } else if a.Update? {
        UpdateRemembers(s, a.updater, a.outcome);
      } else {
        Frames.OtherFrames(s, a);
      }
    }
  }

  lemma {:induction false} RunRemembers(s: State, more: seq<Action>)
    requires Reachable(s)
    ensures Remembers(s, Run(s, more))
  {
    if more != [] {
      var front := more[..|more| - 1];
      RunRemembers(s, front);
      Runs.ReachesOn(s, front);
      ReachableRegistered(Run(s, front));
      StepRemembers(Run(s, front), more[|more| - 1]);
      RemembersOn(s, Run(s, front), Run(s, more));
    }
  }

  lemma RemembersOn(s: State, t: State, u: State)
    requires Remembers(s, t) && Remembers(t, u)
    ensures Remembers(s, u)
  {
  }

  // ---------------------------------------------------------------- what readers can have seen

  /** Some worker or other caller has read this status at this version and not written yet. */
  predicate HasRead(s: State, id: ClaimId, seen: Status, version: nat) {
    || (exists n :: 0 <= n < |s.workers| && s.workers[n].at.Swap?
          && s.workers[n].at.id == id && s.workers[n].at.seen == seen && s.workers[n].at.version == version)
    || (exists n :: 0 <= n < |s.updaters| && s.updaters[n].at.Swapping?
          && s.updaters[n].id == id && s.updaters[n].at.seen == seen && s.updaters[n].at.version == version)
  }

  /** The status shows at this version, in the row or in what somebody has read. */
  predicate Observed(s: State, id: ClaimId, status: Status, version: nat) {
    HasRead(s, id, status, version) || (Matches(s.db.rows, id, version) && s.db.rows[id].status == status)
  }

  lemma ObservedIsOnRecord(s: State, id: ClaimId, status: Status, version: nat)
    requires Reachable(s) && Observed(s, id, status, version)
    ensures id in s.log.history && version < |s.log.history[id]| && s.log.history[id][version].status == status
  {
    var limit, actions :| s == Run(Init(limit), actions);
    AlwaysChronicled(limit, actions, id);
    AlwaysRegistered(limit, actions);
    ObservationRecorded(s, id, status, version);
  }

  lemma ObservationRecorded(s: State, id: ClaimId, status: Status, version: nat)
    requires Chronicled(s, id) && RowsOwned(s) && Observed(s, id, status, version)
    ensures id in s.log.history && version < |s.log.history[id]| && s.log.history[id][version].status == status
  {
  }

  /** At whatever times a version of a claim is observed, in the row or by whoever has read it, it
      shows the same status. So a compare-and-set that matches replaces the very status that was
      validated, however long ago. */
  lemma EqualVersionEqualStatus(s: State, more: seq<Action>, t: State, id: ClaimId, version: nat,
                                one: Status, other: Status)
    requires Reachable(s) && t == Run(s, more)
    requires Observed(s, id, one, version) && Observed(t, id, other, version)
    ensures one == other
  {
    Runs.ReachesOn(s, more);
    ObservedIsOnRecord(s, id, one, version);
    ObservedIsOnRecord(t, id, other, version);
    RunRemembers(s, more);
  }
}
