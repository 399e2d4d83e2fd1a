/** What becomes of a claim whose delivery failed half-way: the retries can never finish it. */
module Stranding {
  import opened Basics
  import opened IdempotencyKeys
  import opened Lifecycle
  import opened ClaimSystem
  import Frames
  import Registry
  import Runs
  import History
  import opened Ownership
  import Replies
  import Outcomes

  // ---------------------------------------------------------------- stranded for ever

  /** The claim has left PENDING without reaching a verdict, and no delivery is driving it. */
  predicate Stranded(s: State, id: ClaimId) {
    && id in s.log.history && 2 <= |s.log.history[id]| <= 3
    && forall n | 0 <= n < |s.workers| :: !Drives(s.workers[n], id)
  }

  /** What is known of every reachable state with workers as the only updaters. */
  predicate Settling(s: State, id: ClaimId) {
    Registry.Registered(s) && History.Chronicled(s, id) && Driven(s, id) && RunsDistinct(s) && s.updaters == []
  }

  lemma ReachableSettling(s: State, id: ClaimId)
    requires Reachable(s) && s.updaters == []
    ensures Settling(s, id)
  {
    var limit, actions :| s == Run(Init(limit), actions);
    Registry.AlwaysRegistered(limit, actions);
    History.AlwaysChronicled(limit, actions, id);
    AlwaysDriven(limit, actions, id);
    AlwaysRunsDistinct(limit, actions);
  }

  /** No compare-and-set on a stranded claim can match. */
  lemma NoSwapMatches(s: State, x: Worker, id: ClaimId)
    requires Registry.Registered(s) && History.Chronicled(s, id) && Driven(s, id) && Stranded(s, id) && x in s.workers
    requires x.at.Swap? && x.at.id == id
    ensures !Matches(s.db.rows, id, x.at.version)
  {
    var n :| 0 <= n < |s.workers| && s.workers[n] == x;
    assert !Drives(s.workers[n], id);
    if Matches(s.db.rows, id, x.at.version) {
      SwapIsNext(s, x, id);
    }
  }

  lemma WorkKeepsStranded(s: State, w: nat, o: Outcome, id: ClaimId)
    requires Settling(s, id) && Stranded(s, id) && w < |s.workers|
    ensures Stranded(WorkStep(s, w, o), id) && WorkStep(s, w, o).log.history[id] == s.log.history[id]
  {
    var x, t := s.workers[w], WorkStep(s, w, o);
    assert x in s.workers && !Drives(x, id);
    if x.at.Swap? && x.at.id == id {
      NoSwapMatches(s, x, id);
    }
    QuietPosition(s, x, o, id);
    QuietRecord(s, x, o, id);
  }

  lemma IdleKeepsStranded(s: State, t: State, id: ClaimId)
    requires Stranded(s, id) && t.log.history == s.log.history
    requires forall n | 0 <= n < |t.workers| ::
               (n < |s.workers| && t.workers[n].at == s.workers[n].at) || Token(t.workers[n].at).None?
    ensures Stranded(t, id)
  {
  }

  lemma CreateKeepsStranded(s: State, i: nat, o: Outcome, uuid: ClaimId, id: ClaimId)
    requires Registry.Registered(s) && Stranded(s, id) && Enabled(s, Create(i, o, uuid))
    ensures Stranded(CreateStep(s, i, o, uuid), id) && CreateStep(s, i, o, uuid).log.history[id] == s.log.history[id]
  {
    Frames.CreateFrames(s, i, o, uuid);
    assert Registry.Placed(s, s.creators[i]);
  }

  /** The claim is still stranded, at the same place. */
  predicate StaysStranded(s: State, t: State, id: ClaimId)
    requires Stranded(s, id)
  {
    Stranded(t, id) && t.log.history[id] == s.log.history[id]
  }

  lemma StepKeepsStranded(s: State, a: Action, id: ClaimId)
    requires Settling(s, id) && Stranded(s, id)
    ensures StaysStranded(s, Step(s, a), id)
  {
    if Enabled(s, a) {
      if a.Create? {
        CreateKeepsStranded(s, a.creator, a.outcome, a.uuid, id);
      } else if a.Work? {
        WorkKeepsStranded(s, a.worker, a.outcome, id);
      } else {
        OtherKeepsStranded(s, a, id);
      }
    }
  }

  lemma OtherKeepsStranded(s: State, a: Action, id: ClaimId)
    requires Enabled(s, a) && !a.Create? && !a.Work? && s.updaters == [] && Stranded(s, id)
    ensures StaysStranded(s, Step(s, a), id)
  {
    Frames.OtherFrames(s, a);
    IdleKeepsStranded(s, Step(s, a), id);
  }

  /** From then on, and for ever, with any number of workers, redeliveries and retries: no delivery
      drives the claim, its record stays as it is, and its token is never retired. */
  lemma {:induction false} StrandedForEver(s: State, more: seq<Action>, id: ClaimId)
    requires Reachable(s) && Stranded(s, id) && Run(s, more).updaters == []
    ensures Stranded(Run(s, more), id) && Run(s, more).log.history[id] == s.log.history[id]
    ensures id !in Run(s, more).log.retired
  {
    if more != [] {
      var front, a := more[..|more| - 1], more[|more| - 1];
      UpdatersStay(Run(s, front), a);
      StrandedForEver(s, front, id);
      Runs.ReachesOn(s, front);
      ReachableSettling(Run(s, front), id);
      StepKeepsStranded(Run(s, front), a, id);
    }
    Runs.ReachesOn(s, more);
    StrandedIsNotRetired(Run(s, more), id);
  }

  lemma StrandedIsNotRetired(s: State, id: ClaimId)
    requires Reachable(s) && Stranded(s, id) && s.updaters == []
    ensures id !in s.log.retired
  {
    if id in s.log.retired {
      RetiredMeansDecided(s, id);
      FourStatuses(s.log.history[id], id);
    }
  }

  lemma FourStatuses(h: seq<Change>, id: ClaimId)
    requires History.Walk(h) == [Pending, Processing, FraudChecking, Decision(id)]
    ensures |h| == 4
  {
    assert |History.Walk(h)| == 4;
  }

  /** So in a run that drops no token, once nobody holds it, its token is in the dead-letter queue. */
  lemma StrandedEndsBuried(s: State, more: seq<Action>, t: State, limit: nat, actions: seq<Action>, i: nat, id: ClaimId)
    requires Reachable(s) && Stranded(s, id) && t == Run(s, more)
    requires t == Run(Init(limit), actions) && Outcomes.BenignRun(limit, actions)
    requires i < |t.creators| && Replies.Told(t.creators[i].at) == Some(id)
    requires t.updaters == [] && t.log.redelivered[id] == 0 && Outcomes.AtRest(t, id)
    ensures multiset(t.db.dlq)[id] == 1 && id !in t.log.retired
  {
    StrandedForEver(s, more, id);
    Outcomes.ClaimsToldAreSettled(t, limit, actions, i, id);
  }

  // ---------------------------------------------------------------- how a claim gets stranded

  lemma OnlyDriver(s: State, w: nat, id: ClaimId)
    requires Driven(s, id) && RunsDistinct(s) && w < |s.workers| && Drives(s.workers[w], id)
    ensures forall n | 0 <= n < |s.workers| && n != w :: !Drives(s.workers[n], id)
  {
    assert InStep(s.workers[w], s.log.history[id], s.log.events[id]);
    forall n | 0 <= n < |s.workers| && n != w ensures !Drives(s.workers[n], id) {
      assert Drives(s.workers[n], id) ==> InStep(s.workers[n], s.log.history[id], s.log.events[id]);
    }
  }

  /** This command makes the claim's last change, though its worker does not hear of it. */
  predicate MakesLastChange(s: State, x: Worker, o: Outcome) {
    x.at.Swap? && x.at.stage == 2 && o != Lost && Matches(s.db.rows, x.at.id, x.at.version)
  }

  /** The delivery that drives the claim fails or dies before the last change is made; or the first change
      is carried out but reported failed. */
  predicate Strands(s: State, a: Action, id: ClaimId) {
    match a
    case Work(w, o) =>
      w < |s.workers| && var x := s.workers[w];
      if x.at.Swap? && x.at.stage == 0 && x.at.id == id then o == Unacked && Matches(s.db.rows, id, x.at.version)
      else Drives(x, id) && NextWorkAt(s, x, o) == Count(id) && Made(x.at) <= 2 && !MakesLastChange(s, x, o)
    case KillWorker(w) => w < |s.workers| && Drives(s.workers[w], id) && Made(s.workers[w].at) <= 2
    case _ => false
  }

  /** Exactly which steps strand a claim. */
  lemma StrandedExactlyBy(s: State, a: Action, t: State, id: ClaimId)
    requires Reachable(s) && t == Step(s, a) && Enabled(s, a) && t.updaters == [] && !Stranded(s, id)
    ensures Stranded(t, id) <==> Strands(s, a, id)
  {
    UpdatersStay(s, a);
    ReachableSettling(s, id);
    if a.Work? {
      if SwapsNow(s, a.worker, a.outcome, id) {
        MatchStrands(s, a.worker, a.outcome, id);
      } else {
        OtherWorkStrands(s, a.worker, a.outcome, id);
      }
    } else if a.KillWorker? {
      KillStrands(s, a.worker, id);
    } else if a.Create? {
      CreateStrandsNothing(s, a.creator, a.outcome, a.uuid, id);
    } else {
      IdleStrandsNothing(s, a, id);
    }
  }

  predicate SwapsNow(s: State, w: nat, o: Outcome, id: ClaimId) {
    w < |s.workers| && var at := s.workers[w].at;
    at.Swap? && at.id == id && o != Lost && Matches(s.db.rows, id, at.version)
  }

  /** A matching compare-and-set strands the claim when it is not the last and its worker does not hear of it. */
  lemma MatchStrands(s: State, w: nat, o: Outcome, id: ClaimId)
    requires Settling(s, id) && SwapsNow(s, w, o, id)
    ensures Stranded(WorkStep(s, w, o), id) <==> Strands(s, Work(w, o), id)
  {
    MatchIsNext(s, w, o, id);
    SwapperIsAlone(s, w, id);
    SwapLeaves(s, w, o, id);
    WorkerAfterSwap(s, s.workers[w], o);
    AloneStrands(s, WorkStep(s, w, o), w, id);
    MatchCounts(s, w, o, id);
  }

  lemma MatchIsNext(s: State, w: nat, o: Outcome, id: ClaimId)
    requires Settling(s, id) && SwapsNow(s, w, o, id)
    ensures id in s.log.history && id in s.log.events && |s.log.history[id]| == s.workers[w].at.stage + 1 <= 3
  {
    var x := s.workers[w];
    assert Drives(x, id) ==> InStep(x, s.log.history[id], s.log.events[id]);
    SwapIsNext(s, x, id);
  }

  lemma MatchCounts(s: State, w: nat, o: Outcome, id: ClaimId)
    requires SwapsNow(s, w, o, id) && s.workers[w].at.stage <= 2
    ensures Strands(s, Work(w, o), id) <==> o == Unacked && s.workers[w].at.stage <= 1
  {
    WorkerAfterSwap(s, s.workers[w], o);
  }

  /** With nobody else driving, what counts is where this worker is, and the length of the record. */
  lemma AloneStrands(s: State, t: State, w: nat, id: ClaimId)
    requires w < |s.workers| == |t.workers| && id in t.log.history
    requires forall n | 0 <= n < |s.workers| && n != w :: t.workers[n] == s.workers[n] && !Drives(s.workers[n], id)
    ensures Stranded(t, id) <==> 2 <= |t.log.history[id]| <= 3 && !Drives(t.workers[w], id)
  {
  }

  lemma WorkerAfterSwap(s: State, x: Worker, o: Outcome)
    requires x.at.Swap? && Matches(s.db.rows, x.at.id, x.at.version)
    ensures NextWorkAt(s, x, o) == if o == Acked then Reread(x.at.id, x.at.stage) else Count(x.at.id)
  {
  }

  /** Any other command leaves the record alone; it strands a claim when it ends its driver's work. */
  lemma OtherWorkStrands(s: State, w: nat, o: Outcome, id: ClaimId)
    requires Settling(s, id) && w < |s.workers| && !SwapsNow(s, w, o, id) && !Stranded(s, id)
    ensures Stranded(WorkStep(s, w, o), id) <==> Strands(s, Work(w, o), id)
  {
    var x, t := s.workers[w], WorkStep(s, w, o);
    RecordKept(s, x, o, id);
    DriverGoesOn(s, x, o, id);
    assert forall n | 0 <= n < |t.workers| && n != w :: t.workers[n] == s.workers[n];
    StrandsWhenGivenUp(s, w, o, id);
    if Drives(x, id) {
      DriverStrands(s, t, w, id);
    } else {
      StillDriven(s, t, w, id);
    }
  }

  lemma StrandsWhenGivenUp(s: State, w: nat, o: Outcome, id: ClaimId)
    requires w < |s.workers| && !SwapsNow(s, w, o, id)
    ensures var x := s.workers[w];
            Strands(s, Work(w, o), id) <==>
              Drives(x, id) && Made(x.at) <= 2 && !Drives(NextWorker(s, x, o), id)
  {
    DriverGoesOn(s, s.workers[w], o, id);
  }

  lemma RecordKept(s: State, x: Worker, o: Outcome, id: ClaimId)
    requires !(x.at.Swap? && x.at.id == id && o != Lost && Matches(s.db.rows, id, x.at.version))
    ensures id in HistoryAfterWork(s, x, o) <==> id in s.log.history
    ensures id in s.log.history ==> HistoryAfterWork(s, x, o)[id] == s.log.history[id]
  {
  }

  /** A driving worker goes on driving, gives up, or is through; nobody else begins to drive. */
  lemma DriverGoesOn(s: State, x: Worker, o: Outcome, id: ClaimId)
    requires !(x.at.Swap? && x.at.id == id && o != Lost && Matches(s.db.rows, id, x.at.version))
    ensures var y := NextWorker(s, x, o);
            && (Drives(y, id) ==> Drives(x, id))
            && (Drives(x, id) && !Drives(y, id) ==> y.at == Count(id) || (x.at.Reread? && x.at.stage == 2))
            && (Drives(x, id) && y.at == Count(id) ==> !Drives(y, id))
  {
  }

  /** When the driver stops driving and the record stays, the claim is stranded unless it has its verdict. */
  lemma DriverStrands(s: State, t: State, w: nat, id: ClaimId)
    requires Driven(s, id) && RunsDistinct(s) && w < |s.workers| == |t.workers| && Drives(s.workers[w], id)
    requires id in t.log.history <==> id in s.log.history
    requires id in s.log.history ==> t.log.history[id] == s.log.history[id]
    requires forall n | 0 <= n < |t.workers| && n != w :: t.workers[n] == s.workers[n]
    ensures Stranded(t, id) <==> Made(s.workers[w].at) <= 2 && !Drives(t.workers[w], id)
  {
    assert InStep(s.workers[w], s.log.history[id], s.log.events[id]);
    OnlyDriver(s, w, id);
  }

  lemma StillDriven(s: State, t: State, w: nat, id: ClaimId)
    requires !Stranded(s, id) && w < |s.workers| == |t.workers| && !Drives(s.workers[w], id)
    requires id in t.log.history <==> id in s.log.history
    requires id in s.log.history ==> t.log.history[id] == s.log.history[id]
    requires forall n | 0 <= n < |t.workers| && n != w :: t.workers[n] == s.workers[n]
    ensures !Stranded(t, id)
  {
    if id in s.log.history && 2 <= |s.log.history[id]| <= 3 {
      var n :| 0 <= n < |s.workers| && Drives(s.workers[n], id);
      assert Drives(t.workers[n], id);
    }
  }

  lemma KillStrands(s: State, w: nat, id: ClaimId)
    requires Settling(s, id) && w < |s.workers| && !Stranded(s, id)
    ensures Stranded(KillWorkerStep(s, w), id) <==> Strands(s, KillWorker(w), id)
  {
    var x, t := s.workers[w], KillWorkerStep(s, w);
    assert forall n | 0 <= n < |t.workers| && n != w :: t.workers[n] == s.workers[n];
    if Drives(x, id) {
      DriverStrands(s, t, w, id);
    } else {
      StillDriven(s, t, w, id);
    }
  }

  lemma CreateStrandsNothing(s: State, i: nat, o: Outcome, uuid: ClaimId, id: ClaimId)
    requires Settling(s, id) && Enabled(s, Create(i, o, uuid)) && !Stranded(s, id)
    ensures !Stranded(CreateStep(s, i, o, uuid), id)
  {
    Frames.CreateFrames(s, i, o, uuid);
    assert Registry.Placed(s, s.creators[i]);
  }

  lemma IdleStrandsNothing(s: State, a: Action, id: ClaimId)
    requires !Stranded(s, id) && s.updaters == [] && Enabled(s, a) && !a.Create? && !a.Work? && !a.KillWorker?
    ensures !Stranded(Step(s, a), id)
  {
    var t := Step(s, a);
    Frames.OtherFrames(s, a);
    if id in s.log.history && 2 <= |s.log.history[id]| <= 3 {
      var n :| 0 <= n < |s.workers| && Drives(s.workers[n], id);
      assert Drives(t.workers[n], id);
    }
  }

  lemma StatusTellsLength(s: State, id: ClaimId)
    requires Settling(s, id) && id in s.db.rows
    ensures id in s.log.history && |s.log.history[id]| == s.db.rows[id].version + 1
    ensures s.db.rows[id].status in {Processing, FraudChecking} <==> 2 <= |s.log.history[id]| <= 3
  {
    var h := s.log.history[id];
    assert History.Walk(h)[0] == Pending;
    assert |h| > 1 ==> h[|h| - 1] == Change(Target(id, |h| - 2), h[1].author);
  }
}
