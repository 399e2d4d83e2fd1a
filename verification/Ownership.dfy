/** Workers only: one delivery drives a claim, its events come in order, and its verdict stands. */
module Ownership {
  import opened Basics
  import opened IdempotencyKeys
  import opened Lifecycle
  import opened ClaimSystem
  import Frames
  import opened Registry
  import opened History
  import Tokens
  import opened Retries

  /** The status changes a delivery has made so far. */
  function Made(at: WorkAt): nat {
    match at
    case Read(_, stage) => stage
    case Swap(_, stage, _, _) => stage
    case Reread(_, stage) => stage + 1
    case Pause(_, stage, _) => stage
    case _ => 0
  }

  /** The worker is in the middle of driving this claim. */
  predicate Drives(x: Worker, id: ClaimId) {
    Made(x.at) >= 1 && Token(x.at) == Some(id)
  }

  /** Every entry after the first is the next stage's status, and all have one author: a delivery. */
  predicate OneAuthor(h: seq<Change>, id: ClaimId) {
    && |h| <= 4
    && forall n | 1 <= n < |h| :: h[n] == Change(Target(id, n - 1), h[1].author) && h[n].author.ByRun?
  }

  /** The events are the history after its first entry, or that without its last entry. */
  predicate InOrder(events: seq<Event>, h: seq<Change>) {
    && |events| <= |h| - 1 <= |events| + 1
    && forall n | 0 <= n < |events| :: events[n].status == h[n + 1].status
  }

  /** Where a driving worker stands in its claim's history and events. */
  predicate InStep(x: Worker, h: seq<Change>, events: seq<Event>) {
    && |h| == Made(x.at) + 1 && |h| > 1
    && h[1].author == ByRun(x.run)
    && (x.at.Swap? ==> x.at.version == x.at.stage)
    && |events| == if x.at.Reread? then Made(x.at) - 1 else Made(x.at)
  }

  predicate Driven(s: State, id: ClaimId) {
    if id in s.log.history && id in s.log.events then
      && OneAuthor(s.log.history[id], id)
      && InOrder(s.log.events[id], s.log.history[id])
      && forall n | 0 <= n < |s.workers| && Drives(s.workers[n], id) ::
           InStep(s.workers[n], s.log.history[id], s.log.events[id])
    else forall n | 0 <= n < |s.workers| :: !Drives(s.workers[n], id)
  }

  /** Deliveries in progress have different numbers, all drawn already. */
  predicate RunsDistinct(s: State) {
    && (forall n | 0 <= n < |s.workers| && Spent(s.workers[n].at) == 1 :: s.workers[n].run < |s.log.runs|)
    && (forall m, n | 0 <= m < n < |s.workers| && Spent(s.workers[m].at) == 1 && Spent(s.workers[n].at) == 1 ::
          s.workers[m].run != s.workers[n].run)
  }

  lemma IdleRunsDistinct(s: State, t: State)
    requires RunsDistinct(s) && t.log.runs == s.log.runs
    requires forall n | 0 <= n < |t.workers| ::
               (n < |s.workers| && t.workers[n].at == s.workers[n].at && t.workers[n].run == s.workers[n].run)
               || Spent(t.workers[n].at) == 0
    ensures RunsDistinct(t)
  {
  }

  lemma StepRunsDistinct(s: State, a: Action)
    requires RunsDistinct(s)
    ensures RunsDistinct(Step(s, a))
  {
    if Enabled(s, a) {
      if a.Create? {
        Frames.CreateFrames(s, a.creator, a.outcome, a.uuid);
      } else if a.Work? {
        WorkRunsDistinct(s, a.worker, a.outcome);
      } else if a.Update? {
        Frames.UpdateFrames(s, a.updater, a.outcome);
      } else {
        Frames.OtherFrames(s, a);
        IdleRunsDistinct(s, Step(s, a));
      }
    }
  }

  lemma SpentComesFrom(s: State, x: Worker, o: Outcome)
    ensures Spent(NextWorkAt(s, x, o)) == 1 ==> Spent(x.at) == 1 || Delivers(s, x, o)
  {
  }

  lemma WorkRunsDistinct(s: State, w: nat, o: Outcome)
    requires RunsDistinct(s) && w < |s.workers|
    ensures RunsDistinct(WorkStep(s, w, o))
  {
    SpentComesFrom(s, s.workers[w], o);
  }

  lemma {:induction false} AlwaysRunsDistinct(limit: nat, actions: seq<Action>)
    ensures RunsDistinct(Run(Init(limit), actions))
  {
    if actions != [] {
      var front := actions[..|actions| - 1];
      AlwaysRunsDistinct(limit, front);
      StepRunsDistinct(Run(Init(limit), front), actions[|actions| - 1]);
    }
  }

  // ---------------------------------------------------------------- one step of a worker

  /** A matching update at some stage is made by the delivery that made all earlier ones, and
      finds exactly those on record. */
  lemma SwapIsNext(s: State, x: Worker, id: ClaimId)
    requires x.at.Swap? && x.at.id == id && id in s.log.history && id in s.log.events
    requires Matches(s.db.rows, id, x.at.version)
    requires OneAuthor(s.log.history[id], id) && Current(s.db.rows[id], s.log.history[id])
    requires Captured(s.log.history[id], x.at.seen, x.at.version, Target(id, x.at.stage))
    requires InOrder(s.log.events[id], s.log.history[id])
    requires x.at.stage >= 1 ==> InStep(x, s.log.history[id], s.log.events[id])
    ensures |s.log.history[id]| == x.at.stage + 1 && |s.log.events[id]| == x.at.stage
  {
    var h := s.log.history[id];
    if x.at.version >= 1 {
      assert h[x.at.version] == Change(Target(id, x.at.version - 1), h[1].author);
    }
  }

  /** The delivery whose update matches is the only one at work on the claim. */
  lemma SwapperIsAlone(s: State, w: nat, id: ClaimId)
    requires Driven(s, id) && RunsDistinct(s) && w < |s.workers| && id in s.log.history && id in s.log.events
    requires s.workers[w].at.Swap? && s.workers[w].at.id == id && |s.log.history[id]| == s.workers[w].at.stage + 1
    ensures forall n | 0 <= n < |s.workers| && n != w :: !Drives(s.workers[n], id)
  {
    var h, ev := s.log.history[id], s.log.events[id];
    forall n | 0 <= n < |s.workers| && n != w ensures !Drives(s.workers[n], id) {
      assert Drives(s.workers[n], id) ==> InStep(s.workers[n], h, ev);
      assert Drives(s.workers[w], id) ==> InStep(s.workers[w], h, ev);
    }
  }

  /** What a matching update appends keeps the record in order. */
  lemma ChangeKeepsOrder(h: seq<Change>, ev: seq<Event>, id: ClaimId, x: Worker)
    requires OneAuthor(h, id) && InOrder(ev, h) && x.at.Swap? && |h| == x.at.stage + 1 && |ev| == x.at.stage
    requires x.at.stage >= 1 ==> h[1].author == ByRun(x.run)
    ensures var h' := h + [Change(Target(id, x.at.stage), ByRun(x.run))];
            OneAuthor(h', id) && InOrder(ev, h') && h'[1].author == ByRun(x.run)
  {
  }

  lemma SwapDrives(s: State, w: nat, o: Outcome, id: ClaimId)
    requires Registered(s) && Chronicled(s, id) && Driven(s, id) && RunsDistinct(s) && w < |s.workers|
    requires s.workers[w].at.Swap? && s.workers[w].at.id == id && o != Lost
    requires Matches(s.db.rows, id, s.workers[w].at.version)
    ensures Driven(WorkStep(s, w, o), id)
  {
    var x, t := s.workers[w], WorkStep(s, w, o);
    var h, ev := s.log.history[id], s.log.events[id];
    assert Drives(x, id) ==> InStep(x, h, ev);
    SwapIsNext(s, x, id);
    SwapperIsAlone(s, w, id);
    SwapLeaves(s, w, o, id);
    AfterSwap(s, t, w, id);
  }

  lemma SwapLeaves(s: State, w: nat, o: Outcome, id: ClaimId)
    requires w < |s.workers| && id in s.log.history
    requires s.workers[w].at.Swap? && s.workers[w].at.id == id && o != Lost
    requires Matches(s.db.rows, id, s.workers[w].at.version)
    ensures var x, t := s.workers[w], WorkStep(s, w, o);
            && id in t.log.history && t.log.events == s.log.events
            && t.log.history[id] == s.log.history[id] + [Change(Target(id, x.at.stage), ByRun(x.run))]
            && |t.workers| == |s.workers| && t.workers[w].run == x.run
            && (t.workers[w].at == Reread(id, x.at.stage) || t.workers[w].at == Count(id))
            && forall n | 0 <= n < |s.workers| && n != w :: t.workers[n] == s.workers[n]
  {
  }

  /** The record with one more change, and only the swapping worker moved. */
  lemma AfterSwap(s: State, t: State, w: nat, id: ClaimId)
    requires Driven(s, id) && w < |s.workers| && id in s.log.history && id in s.log.events
    requires var x := s.workers[w];
             && x.at.Swap? && x.at.id == id && |s.log.history[id]| == x.at.stage + 1 && |s.log.events[id]| == x.at.stage
             && (x.at.stage >= 1 ==> s.log.history[id][1].author == ByRun(x.run))
             && id in t.log.history && t.log.events == s.log.events
             && t.log.history[id] == s.log.history[id] + [Change(Target(id, x.at.stage), ByRun(x.run))]
             && |t.workers| == |s.workers| && t.workers[w].run == x.run
             && (t.workers[w].at == Reread(id, x.at.stage) || t.workers[w].at == Count(id))
    requires forall n | 0 <= n < |s.workers| && n != w :: t.workers[n] == s.workers[n] && !Drives(s.workers[n], id)
    ensures Driven(t, id)
  {
    ChangeKeepsOrder(s.log.history[id], s.log.events[id], id, s.workers[w]);
  }

  lemma RereadDrives(s: State, w: nat, o: Outcome, id: ClaimId)
    requires RowsOwned(s) && Driven(s, id) && RunsDistinct(s) && w < |s.workers|
    requires s.workers[w].at.Reread? && s.workers[w].at.id == id && o == Acked
    ensures Driven(WorkStep(s, w, o), id)
  {
    var x, t := s.workers[w], WorkStep(s, w, o);
    assert Drives(x, id);
    Frames.WorkFrames(s, w, o);
    var h, ev := s.log.history[id], s.log.events[id];
    assert t.log.history == s.log.history;
    assert t.log.events[id] == ev + [Event(Target(id, x.at.stage), Room(s.sockets, id))];
    forall n | 0 <= n < |t.workers|
      ensures Drives(t.workers[n], id) ==> InStep(t.workers[n], h, t.log.events[id])
    {
      assert n != w && Drives(s.workers[n], id) ==> InStep(s.workers[n], h, ev);
    }
  }

  /** Outside a matching update and an emission, nothing on record changes, and a worker drives
      a claim afterwards only if it did before, by the same number of changes. */
  lemma QuietPosition(s: State, x: Worker, o: Outcome, id: ClaimId)
    requires !(x.at.Swap? && x.at.id == id && o != Lost && Matches(s.db.rows, id, x.at.version))
    requires !(x.at.Reread? && x.at.id == id && o == Acked)
    ensures var y := NextWorker(s, x, o);
            Drives(y, id) ==>
              Drives(x, id) && Made(y.at) == Made(x.at) && y.run == x.run && (y.at.Reread? <==> x.at.Reread?)
  {
  }

  lemma QuietRecord(s: State, x: Worker, o: Outcome, id: ClaimId)
    requires id in s.log.history && id in s.log.events
    requires !(x.at.Swap? && x.at.id == id && o != Lost && Matches(s.db.rows, id, x.at.version))
    requires !(x.at.Reread? && x.at.id == id && o == Acked)
    ensures id in HistoryAfterWork(s, x, o) && HistoryAfterWork(s, x, o)[id] == s.log.history[id]
    ensures var ev := LogAfterWork(s, x, o).events; id in ev && ev[id] == s.log.events[id]
  {
  }

  /** A driving worker that has just read the row read its current version. */
  lemma DriverReadsItsStage(s: State, x: Worker, o: Outcome, id: ClaimId)
    requires Chronicled(s, id) && id in s.log.history && id in s.log.events
    requires Drives(x, id) ==> InStep(x, s.log.history[id], s.log.events[id])
    requires NextWorkAt(s, x, o).Swap? && NextWorkAt(s, x, o).id == id && NextWorkAt(s, x, o).stage >= 1
    ensures NextWorkAt(s, x, o).version == NextWorkAt(s, x, o).stage
  {
  }

  lemma QuietInStep(s: State, x: Worker, o: Outcome, id: ClaimId)
    requires Chronicled(s, id) && id in s.log.history && id in s.log.events
    requires Drives(x, id) ==> InStep(x, s.log.history[id], s.log.events[id])
    requires !(x.at.Swap? && x.at.id == id && o != Lost && Matches(s.db.rows, id, x.at.version))
    requires !(x.at.Reread? && x.at.id == id && o == Acked)
    requires Drives(NextWorker(s, x, o), id)
    ensures InStep(NextWorker(s, x, o), s.log.history[id], s.log.events[id])
  {
    QuietPosition(s, x, o, id);
    if NextWorkAt(s, x, o).Swap? {
      DriverReadsItsStage(s, x, o, id);
    }
  }

  lemma QuietDrives(s: State, w: nat, o: Outcome, id: ClaimId)
    requires Registered(s) && Chronicled(s, id) && Driven(s, id) && w < |s.workers|
    requires var x := s.workers[w];
             && !(x.at.Swap? && x.at.id == id && o != Lost && Matches(s.db.rows, id, x.at.version))
             && !(x.at.Reread? && x.at.id == id && o == Acked)
    ensures Driven(WorkStep(s, w, o), id)
  {
    var x, t := s.workers[w], WorkStep(s, w, o);
    Frames.WorkFrames(s, w, o);
    WorkSame(s, w, o);
    if id in s.log.history {
      QuietRecord(s, x, o, id);
      forall n | 0 <= n < |t.workers| && Drives(t.workers[n], id)
        ensures InStep(t.workers[n], s.log.history[id], s.log.events[id])
      {
        if n == w {
          QuietInStep(s, x, o, id);
        }
      }
    } else {
      QuietPosition(s, x, o, id);
    }
  }

  lemma WorkDrives(s: State, w: nat, o: Outcome, id: ClaimId)
    requires Registered(s) && Chronicled(s, id) && Driven(s, id) && RunsDistinct(s) && w < |s.workers|
    ensures Driven(WorkStep(s, w, o), id)
  {
    var x := s.workers[w];
    if x.at.Swap? && x.at.id == id && o != Lost && Matches(s.db.rows, id, x.at.version) {
      SwapDrives(s, w, o, id);
    } else if x.at.Reread? && x.at.id == id && o == Acked {
      RereadDrives(s, w, o, id);
    } else {
      QuietDrives(s, w, o, id);
    }
  }

  lemma CreateDrives(s: State, i: nat, o: Outcome, uuid: ClaimId, id: ClaimId)
    requires Registered(s) && Driven(s, id) && Enabled(s, Create(i, o, uuid))
    ensures Driven(CreateStep(s, i, o, uuid), id)
  {
    Frames.CreateFrames(s, i, o, uuid);
    assert Placed(s, s.creators[i]);
  }

  /** Steps that leave the record alone and put no worker to work. */
  lemma IdleDrives(s: State, t: State, id: ClaimId)
    requires Driven(s, id) && t.log.history == s.log.history && t.log.events == s.log.events
    requires forall n | 0 <= n < |t.workers| ::
               (n < |s.workers| && t.workers[n].at == s.workers[n].at && t.workers[n].run == s.workers[n].run)
               || Token(t.workers[n].at).None?
    ensures Driven(t, id)
  {
  }

  lemma StepDrives(s: State, a: Action, id: ClaimId)
    requires Registered(s) && Chronicled(s, id) && Driven(s, id) && RunsDistinct(s) && s.updaters == []
    ensures Driven(Step(s, a), id)
  {
    if Enabled(s, a) {
      if a.Create? {
        CreateDrives(s, a.creator, a.outcome, a.uuid, id);
      } else if a.Work? {
        WorkDrives(s, a.worker, a.outcome, id);
      } else {
        Frames.OtherFrames(s, a);
        IdleDrives(s, Step(s, a), id);
      }
    }
  }

  lemma UpdatersStay(s: State, a: Action)
    ensures |s.updaters| <= |Step(s, a).updaters|
  {
    if Enabled(s, a) {
      match a
      case Create(i, o, uuid) => Frames.CreateFrames(s, i, o, uuid);
      case Work(w, o) => Frames.WorkFrames(s, w, o);
      case _ =>
    }
  }

  /** With workers as the only callers of `updateClaimStatus`, any number of them, claims
      delivered any number of times: in every reachable state one delivery made all of a claim's
      changes, and its events are its changes in order, at most the last one missing. */
  lemma {:induction false} AlwaysDriven(limit: nat, actions: seq<Action>, id: ClaimId)
    requires Run(Init(limit), actions).updaters == []
    ensures Driven(Run(Init(limit), actions), id)
  {
    if actions != [] {
      var front, a := actions[..|actions| - 1], actions[|actions| - 1];
      UpdatersStay(Run(Init(limit), front), a);
      AlwaysDriven(limit, front, id);
      AlwaysRegistered(limit, front);
      AlwaysChronicled(limit, front, id);
      AlwaysRunsDistinct(limit, front);
      StepDrives(Run(Init(limit), front), a, id);
    }
  }

  function Statuses(events: seq<Event>): seq<Status> {
    seq(|events|, n requires 0 <= n < |events| => events[n].status)
  }

  /** The same, spelled out: all changes have one author, and the emitted statuses are the
      history after PENDING, or that without its last entry. */
  lemma EventsFollowHistory(s: State, id: ClaimId)
    requires Reachable(s) && s.updaters == [] && id in s.log.history
    ensures var h := s.log.history[id];
            && id in s.log.events && h != []
            && (forall n | 1 <= n < |h| :: h[n].author == h[1].author && h[n].author.ByRun?)
            && (Statuses(s.log.events[id]) == Walk(h)[1..]
                || (|h| > 1 && Statuses(s.log.events[id]) == Walk(h)[1..|h| - 1]))
  {
    var limit, actions :| s == Run(Init(limit), actions);
    AlwaysDriven(limit, actions, id);
    AlwaysRegistered(limit, actions);
    SpellOut(s, id);
  }

  lemma SpellOut(s: State, id: ClaimId)
    requires Driven(s, id) && id in s.log.history && id in s.log.events
    ensures var h, ev := s.log.history[id], Statuses(s.log.events[id]);
            && h != [] && (forall n | 1 <= n < |h| :: h[n].author == h[1].author && h[n].author.ByRun?)
            && (ev == Walk(h)[1..] || (|h| > 1 && ev == Walk(h)[1..|h| - 1]))
  {
    var h, ev := s.log.history[id], Statuses(s.log.events[id]);
    if |ev| == |h| - 1 {
      assert ev == Walk(h)[1..];
    } else {
      assert ev == Walk(h)[1..|h| - 1];
    }
  }

  /** At most one worker is driving a claim, and its updates cannot lose unless the row is gone. */
  lemma DriverCannotLose(s: State, w: nat)
    requires Reachable(s) && s.updaters == [] && w < |s.workers|
    requires Made(s.workers[w].at) >= 1 && s.workers[w].at.id in s.db.rows
    ensures var at := s.workers[w].at;
            && (at.Read? ==> Allowed(s.db.rows[at.id].status, Target(at.id, at.stage)))
            && (at.Swap? ==> Matches(s.db.rows, at.id, at.version))
            && (forall v | 0 <= v < |s.workers| && Drives(s.workers[v], at.id) :: v == w)
  {
    var limit, actions :| s == Run(Init(limit), actions);
    var id := s.workers[w].at.id;
    AlwaysDriven(limit, actions, id);
    AlwaysChronicled(limit, actions, id);
    AlwaysRegistered(limit, actions);
    AlwaysRunsDistinct(limit, actions);
    DriverFindsItsStage(s, w, id);
  }

  lemma DriverFindsItsStage(s: State, w: nat, id: ClaimId)
    requires Driven(s, id) && Chronicled(s, id) && RowsOwned(s) && RunsDistinct(s) && id in s.db.rows
    requires w < |s.workers| && Drives(s.workers[w], id)
    ensures var at := s.workers[w].at;
            && (at.Read? ==> Allowed(s.db.rows[id].status, Target(id, at.stage)))
            && (at.Swap? ==> Matches(s.db.rows, id, at.version))
    ensures forall v | 0 <= v < |s.workers| && Drives(s.workers[v], id) :: v == w
  {
    var x, h := s.workers[w], s.log.history[id];
    assert InStep(x, h, s.log.events[id]);
    assert h[|h| - 1] == Change(Target(id, |h| - 2), h[1].author);
    forall v | 0 <= v < |s.workers| && Drives(s.workers[v], id) ensures v == w {
      assert InStep(s.workers[v], h, s.log.events[id]);
    }
  }

  // ---------------------------------------------------------------- the verdict

  /** A retired token's claim has been through all stages. */
  predicate RetiredDecided(s: State, id: ClaimId) {
    id in s.log.retired ==> id in s.log.history && |s.log.history[id]| == 4
  }

  lemma RetiresDecided(s: State, w: nat, o: Outcome, id: ClaimId)
    requires RowsOwned(s) && Chronicled(s, id) && Driven(s, id) && w < |s.workers|
    requires Retires(s, s.workers[w], o) == Some(id)
    ensures id in s.log.history && |s.log.history[id]| == 4
  {
    var x := s.workers[w];
    if x.at.Reread? {
      assert Drives(x, id);
    } else {
      var h := s.log.history[id];
      assert Current(s.db.rows[id], h) && Walk(h)[0] == Pending;
      assert |h| > 1;
      assert h[|h| - 1] == Change(Target(id, |h| - 2), h[1].author);
    }
  }

  lemma WorkRetiredDecided(s: State, w: nat, o: Outcome, id: ClaimId)
    requires Registered(s) && Chronicled(s, id) && Driven(s, id) && RetiredDecided(s, id)
    requires RunsDistinct(s) && w < |s.workers|
    ensures RetiredDecided(WorkStep(s, w, o), id)
  {
    var t := WorkStep(s, w, o);
    if Retires(s, s.workers[w], o) == Some(id) {
      RetiresDecided(s, w, o, id);
    }
    WorkDrives(s, w, o, id);
    WorkRemembers(s, w, o);
    WorkSame(s, w, o);
    RetiredGrows(s, w, o, id);
    DecidedStays(s, t, id);
  }

  lemma RetiredGrows(s: State, w: nat, o: Outcome, id: ClaimId)
    requires w < |s.workers|
    ensures id in WorkStep(s, w, o).log.retired <==> id in s.log.retired || Retires(s, s.workers[w], o) == Some(id)
  {
  }

  lemma DecidedStays(s: State, t: State, id: ClaimId)
    requires t.log.history.Keys == t.log.events.Keys && Driven(t, id) && Remembers(s, t)
    requires id in t.log.retired ==> id in s.log.history && |s.log.history[id]| == 4
    ensures RetiredDecided(t, id)
  {
  }

  lemma CreateRetiredDecided(s: State, i: nat, o: Outcome, uuid: ClaimId, id: ClaimId)
    requires Registered(s) && RetiredDecided(s, id) && Enabled(s, Create(i, o, uuid))
    ensures RetiredDecided(CreateStep(s, i, o, uuid), id)
  {
    Frames.CreateFrames(s, i, o, uuid);
    assert Placed(s, s.creators[i]);
  }

  lemma StepRetiredDecided(s: State, a: Action, id: ClaimId)
    requires Registered(s) && Chronicled(s, id) && Driven(s, id) && RetiredDecided(s, id)
    requires RunsDistinct(s) && s.updaters == []
    ensures RetiredDecided(Step(s, a), id)
  {
    if Enabled(s, a) {
      if a.Create? {
        CreateRetiredDecided(s, a.creator, a.outcome, a.uuid, id);
      } else if a.Work? {
        WorkRetiredDecided(s, a.worker, a.outcome, id);
      } else {
        Frames.OtherFrames(s, a);
      }
    }
  }

  lemma {:induction false} AlwaysRetiredDecided(limit: nat, actions: seq<Action>, id: ClaimId)
    requires Run(Init(limit), actions).updaters == []
    ensures RetiredDecided(Run(Init(limit), actions), id)
  {
    if actions != [] {
      var front, a := actions[..|actions| - 1], actions[|actions| - 1];
      UpdatersStay(Run(Init(limit), front), a);
      AlwaysRetiredDecided(limit, front, id);
      AlwaysDriven(limit, front, id);
      AlwaysRegistered(limit, front);
      AlwaysChronicled(limit, front, id);
      AlwaysRunsDistinct(limit, front);
      StepRetiredDecided(Run(Init(limit), front), a, id);
    }
  }

  /** A token is retired only when its claim has reached its verdict, and while the row exists it
      shows that verdict. */
  lemma RetiredMeansDecided(s: State, id: ClaimId)
    requires Reachable(s) && s.updaters == [] && id in s.log.retired
    ensures && id in s.log.history
            && Walk(s.log.history[id]) == [Pending, Processing, FraudChecking, Decision(id)]
            && (id in s.db.rows ==> s.db.rows[id].status == Decision(id))
  {
    var limit, actions :| s == Run(Init(limit), actions);
    AlwaysRetiredDecided(limit, actions, id);
    AlwaysDriven(limit, actions, id);
    AlwaysRegistered(limit, actions);
    AlwaysChronicled(limit, actions, id);
    var h := s.log.history[id];
    assert Walk(h)[0] == Pending;
    assert h[1].status == Target(id, 0) && h[2].status == Target(id, 1) && h[3].status == Target(id, 2);
  }

  // ---------------------------------------------------------------- queue and lock together

  /** The claim a worker is about to update is at the version it read. */
  predicate SwapsFresh(s: State, id: ClaimId) {
    forall n | 0 <= n < |s.workers| && s.workers[n].at.Swap? && s.workers[n].at.id == id ::
      id in s.log.history && s.workers[n].at.version == |s.log.history[id]| - 1
  }

  /** While its token is in one place, nobody but its holder can touch the claim. */
  lemma HolderSwapsFresh(s: State, w: nat, o: Outcome, id: ClaimId)
    requires RowsOwned(s) && Chronicled(s, id) && SwapsFresh(s, id) && Tokens.TokenCount(s, id) <= 1 && w < |s.workers|
    ensures SwapsFresh(WorkStep(s, w, o), id)
  {
    var x, t := s.workers[w], WorkStep(s, w, o);
    if Token(x.at) == Some(id) {
      HolderAlone(s, id, w);
    }
    if id in s.log.history && !(x.at.Swap? && x.at.id == id) {
      OthersUntouched(s, x, o, id);
    }
    NewSwapIsFresh(s, x, o, id);
    OneMoved(s, t, w, id);
  }

  /** A worker that is about to update has just read the row. */
  lemma NewSwapIsFresh(s: State, x: Worker, o: Outcome, id: ClaimId)
    requires RowsOwned(s) && Chronicled(s, id)
    ensures var at, h := NextWorkAt(s, x, o), HistoryAfterWork(s, x, o);
            at.Swap? && at.id == id ==> id in h && at.version == |h[id]| - 1
  {
    if NextWorkAt(s, x, o).Swap? {
      WorkCapturesOnlyKnown(s, x, o);
    }
  }

  lemma OneMoved(s: State, t: State, w: nat, id: ClaimId)
    requires SwapsFresh(s, id) && w < |s.workers| == |t.workers|
    requires forall n | 0 <= n < |s.workers| && n != w :: t.workers[n] == s.workers[n]
    requires (id in s.log.history ==> id in t.log.history && t.log.history[id] == s.log.history[id])
             || forall n | 0 <= n < |s.workers| && n != w :: Token(s.workers[n].at) != Some(id)
    requires var at := t.workers[w].at;
             at.Swap? && at.id == id ==> id in t.log.history && at.version == |t.log.history[id]| - 1
    ensures SwapsFresh(t, id)
  {
  }

  lemma CreateSwapsFresh(s: State, i: nat, o: Outcome, uuid: ClaimId, id: ClaimId)
    requires Registered(s) && Chronicled(s, id) && SwapsFresh(s, id) && Enabled(s, Create(i, o, uuid))
    ensures SwapsFresh(CreateStep(s, i, o, uuid), id)
  {
    Frames.CreateFrames(s, i, o, uuid);
    assert Placed(s, s.creators[i]);
  }

  lemma IdleSwapsFresh(s: State, t: State, id: ClaimId)
    requires SwapsFresh(s, id) && t.log.history == s.log.history
    requires forall n | 0 <= n < |t.workers| ::
               (n < |s.workers| && t.workers[n].at == s.workers[n].at) || !t.workers[n].at.Swap?
    ensures SwapsFresh(t, id)
  {
  }

  lemma StepSwapsFresh(s: State, a: Action, id: ClaimId)
    requires Registered(s) && Chronicled(s, id) && SwapsFresh(s, id)
      && Tokens.TokenCount(s, id) <= 1 && s.updaters == []
    ensures SwapsFresh(Step(s, a), id)
  {
    if Enabled(s, a) {
      if a.Create? {
        CreateSwapsFresh(s, a.creator, a.outcome, a.uuid, id);
      } else if a.Work? {
        HolderSwapsFresh(s, a.worker, a.outcome, id);
      } else {
        Frames.OtherFrames(s, a);
        IdleSwapsFresh(s, Step(s, a), id);
      }
    }
  }

  lemma {:induction false} AlwaysSwapsFresh(limit: nat, actions: seq<Action>, id: ClaimId)
    requires Run(Init(limit), actions).updaters == [] && Run(Init(limit), actions).log.redelivered[id] == 0
    ensures SwapsFresh(Run(Init(limit), actions), id)
  {
    if actions != [] {
      var front, a := actions[..|actions| - 1], actions[|actions| - 1];
      UpdatersStay(Run(Init(limit), front), a);
      RedeliveredGrows(Run(Init(limit), front), a, id);
      AlwaysSwapsFresh(limit, front, id);
      AlwaysRegistered(limit, front);
      AlwaysChronicled(limit, front, id);
      Tokens.OneToken(Run(Init(limit), front), id);
      StepSwapsFresh(Run(Init(limit), front), a, id);
    }
  }

  /** So "Concurrent update detected" is reached only for a claim whose row was deleted. */
  lemma NoConcurrentUpdate(s: State, w: nat)
    requires Reachable(s) && s.updaters == [] && w < |s.workers|
    requires s.workers[w].at.Swap? && s.log.redelivered[s.workers[w].at.id] == 0
    ensures var at := s.workers[w].at;
            Matches(s.db.rows, at.id, at.version) <==> at.id in s.db.rows
  {
    var limit, actions :| s == Run(Init(limit), actions);
    var id := s.workers[w].at.id;
    AlwaysSwapsFresh(limit, actions, id);
    AlwaysRegistered(limit, actions);
    AlwaysChronicled(limit, actions, id);
  }
}
