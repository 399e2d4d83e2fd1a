/** Exactly which claims can still get to a verdict. */
module Finishing {
  import opened Basics
  import opened IdempotencyKeys
  import opened Lifecycle
  import opened ClaimSystem
  import Frames
  import Registry
  import Runs
  import History
  import opened Tokens
  import Retries
  import opened Ownership
  import Outcomes
  import opened Stranding
  import opened Continuations

  // ---------------------------------------------------------------- a token that can still be used

  /** A delivery of the claim is under way and has not asked for PROCESSING successfully yet. */
  predicate Begun(at: WorkAt, id: ClaimId) {
    (at.Inspect? && at.id == id)
    || ((at.Read? || at.Swap? || at.Pause?) && at.id == id && at.stage == 0)
  }

  /** A worker has the claim's token in hand and can still deliver it, or put it back. */
  predicate Retriable(x: Worker, id: ClaimId, retries: nat) {
    Token(x.at) == Some(id)
    && ((x.at.Load? && x.running) || x.at.Requeue?
        || (x.at.Check? && retries < MAX_ATTEMPTS) || (x.at.Count? && retries + 1 < MAX_ATTEMPTS))
  }

  /** The claim's caller is still going to push it, with its payload stored. */
  predicate Coming(at: CreateAt, stored: bool) {
    at.MarkPending? || at.MarkTtl? || at.StorePayload? || (at.Push? && stored)
  }

  predicate InQueueOrHand(s: State, id: ClaimId) {
    id in s.db.list
    || exists n :: 0 <= n < |s.workers| && Retriable(s.workers[n], id, RetryCount(s.db.retry, id))
  }

  predicate Arriving(s: State, id: ClaimId) {
    id in s.log.issued && s.log.issued[id] < |s.creators|
    && Coming(s.creators[s.log.issued[id]].at, id in s.db.payloads)
  }

  /** The claim's token can still be made use of: by a delivery under way, from the queue or a worker's
      hands while the payload is stored, or because its caller has yet to push it. */
  predicate Live(s: State, id: ClaimId) {
    || (exists n :: 0 <= n < |s.workers| && Begun(s.workers[n].at, id))
    || (id in s.db.payloads && InQueueOrHand(s, id))
    || Arriving(s, id)
  }

  predicate SomeDriver(s: State, id: ClaimId) {
    exists n :: 0 <= n < |s.workers| && Drives(s.workers[n], id)
  }

  /** The exact condition: the claim has its verdict, or a delivery is driving it, or it is untouched
      and its token is live. */
  predicate CanFinish(s: State, id: ClaimId)
    requires id in s.db.rows
  {
    var status := s.db.rows[id].status;
    Terminal(status) || SomeDriver(s, id) || (status == Pending && Live(s, id))
  }

  /** This continuation, with workers as the only updaters and without redelivery of the claim by hand,
      gets it to a verdict. */
  predicate FinishesUnaided(s: State, more: seq<Action>, id: ClaimId) {
    var t := Run(s, more);
    t.updaters == [] && t.log.redelivered[id] == 0 && id in t.db.rows && Terminal(t.db.rows[id].status)
  }

  // ---------------------------------------------------------------- untouched, and out of reach

  /** The claim is untouched, and its token is not live. */
  predicate Hopeless(s: State, id: ClaimId) {
    id in s.log.history && |s.log.history[id]| == 1 && !Live(s, id)
  }

  /** What is known of reachable states with workers as the only updaters and without redelivery of the claim. */
  predicate Unaided(s: State, id: ClaimId) {
    && Settling(s, id) && PayloadsNameTheirClaim(s) && Retries.Tried(s, id) && TokenCount(s, id) <= 1
    && s.log.redelivered[id] == 0
  }

  lemma ReachableUnaided(s: State, id: ClaimId)
    requires Reachable(s) && s.updaters == [] && s.log.redelivered[id] == 0
    ensures Unaided(s, id)
  {
    var limit, actions :| s == Run(Init(limit), actions);
    ReachableSettling(s, id);
    AlwaysPayloads(limit, actions);
    Retries.AlwaysTried(limit, actions, id);
    OneToken(s, id);
  }

  /** Nobody is about to change a hopeless claim. */
  lemma NobodySwaps(s: State, x: Worker, id: ClaimId)
    requires Unaided(s, id) && Hopeless(s, id) && x in s.workers
    ensures !Drives(x, id) && !Begun(x.at, id) && !(x.at.Swap? && x.at.id == id) && !(x.at.Reread? && x.at.id == id)
    ensures id in s.db.payloads ==> !Retriable(x, id, RetryCount(s.db.retry, id)) && id !in s.db.list
  {
    var n :| 0 <= n < |s.workers| && s.workers[n] == x;
    assert Drives(s.workers[n], id) ==> InStep(x, s.log.history[id], s.log.events[id]);
  }

  /** A worker that does neither cannot begin to; nor can it come to hold a token it could use. */
  lemma WorkerStaysOut(s: State, x: Worker, o: Outcome, id: ClaimId)
    requires PayloadsNameTheirClaim(s) && !Drives(x, id) && !Begun(x.at, id)
    requires id in s.db.payloads ==> !Retriable(x, id, RetryCount(s.db.retry, id)) && id !in s.db.list
    ensures var y, retries := NextWorker(s, x, o), RetryCount(RetryAfterWork(s.db.retry, x, o), id);
            && !Begun(y.at, id)
            && (id in s.db.payloads ==> !Retriable(y, id, retries) && id !in ListAfterWork(s, x, o))
  {
  }

  /** Another worker's chances do not improve by this one's command. */
  lemma OthersStayOut(s: State, w: nat, o: Outcome, n: nat, id: ClaimId)
    requires TokenCount(s, id) <= 1 && Retries.Tried(s, id) && w < |s.workers| && n < |s.workers| && n != w
    requires !Retriable(s.workers[n], id, RetryCount(s.db.retry, id))
    ensures !Retriable(s.workers[n], id, RetryCount(RetryAfterWork(s.db.retry, s.workers[w], o), id))
  {
    if Token(s.workers[n].at) == Some(id) {
      Retries.HolderAlone(s, id, n);
    }
  }

  lemma WorkKeepsHopeless(s: State, w: nat, o: Outcome, id: ClaimId)
    requires Unaided(s, id) && Hopeless(s, id) && w < |s.workers|
    ensures Hopeless(WorkStep(s, w, o), id) && WorkStep(s, w, o).log.history[id] == s.log.history[id]
  {
    var x, t := s.workers[w], WorkStep(s, w, o);
    NobodySwaps(s, x, id);
    RecordKept(s, x, o, id);
    WorkerStaysOut(s, x, o, id);
    Frames.WorkFrames(s, w, o);
    forall n | 0 <= n < |t.workers|
      ensures Useless(t.workers[n], id, id in t.db.payloads, RetryCount(t.db.retry, id))
    {
      if n != w {
        NobodySwaps(s, s.workers[n], id);
        if id in s.db.payloads {
          OthersStayOut(s, w, o, n, id);
        }
      }
    }
    HopelessWorkers(t, id);
  }

  /** A caller's step: only the claim's own caller could store its payload or push it. */
  lemma CallerStaysOut(s: State, i: nat, o: Outcome, uuid: ClaimId, id: ClaimId)
    requires Registry.Registered(s) && id in s.log.history && !Arriving(s, id) && Enabled(s, Create(i, o, uuid))
    ensures var t := CreateStep(s, i, o, uuid);
            && !Arriving(t, id) && (id in t.db.payloads <==> id in s.db.payloads)
            && (id in s.db.payloads && id in t.db.list ==> id in s.db.list)
            && id in t.log.history && t.log.history[id] == s.log.history[id]
  {
    var c, t := s.creators[i], CreateStep(s, i, o, uuid);
    assert Registry.Placed(s, c) && id in s.log.issued;
    OwnClaim(s, i, id);
    CommandStaysOut(s, c, o, id);
    assert t.log.issued[id] == s.log.issued[id];
  }

  lemma OwnClaim(s: State, i: nat, id: ClaimId)
    requires Registry.Registered(s) && id in s.log.issued && i < |s.creators| && !Arriving(s, id)
    ensures s.creators[i].claim == Some(id) <==> s.log.issued[id] == i
    ensures s.creators[i].claim == Some(id) ==> !Coming(s.creators[i].at, id in s.db.payloads)
  {
  }

  /** What the command does to this claim's payload, place in the queue and history: nothing. */
  lemma CommandStaysOut(s: State, c: Creator, o: Outcome, id: ClaimId)
    requires Registry.Placed(s, c) && id in s.log.history
    requires c.claim == Some(id) ==> !Coming(c.at, id in s.db.payloads)
    ensures id in PayloadsAfterCreate(s.db, c, o) <==> id in s.db.payloads
    ensures id in s.db.payloads && id in ListAfterCreate(s.db.list, c, o) ==> id in s.db.list
    ensures Inserts(c, o) ==> c.claim != Some(id)
    ensures c.claim == Some(id) ==> !Coming(NextCreateAt(s, c, o), id in s.db.payloads)
  {
  }

  lemma CreateKeepsHopeless(s: State, i: nat, o: Outcome, uuid: ClaimId, id: ClaimId)
    requires Unaided(s, id) && Hopeless(s, id) && Enabled(s, Create(i, o, uuid))
    ensures Hopeless(CreateStep(s, i, o, uuid), id) && CreateStep(s, i, o, uuid).log.history[id] == s.log.history[id]
  {
    var t := CreateStep(s, i, o, uuid);
    Frames.CreateFrames(s, i, o, uuid);
    CallerStaysOut(s, i, o, uuid, id);
    forall n | 0 <= n < |t.workers|
      ensures Useless(t.workers[n], id, id in t.db.payloads, RetryCount(t.db.retry, id))
    {
      NobodySwaps(s, s.workers[n], id);
    }
    HopelessWorkers(t, id);
  }

  lemma OtherKeepsHopeless(s: State, a: Action, id: ClaimId)
    requires Unaided(s, id) && Hopeless(s, id) && Enabled(s, a) && !a.Create? && !a.Work?
    requires Step(s, a).log.redelivered[id] == 0
    ensures Hopeless(Step(s, a), id) && Step(s, a).log.history[id] == s.log.history[id]
  {
    var t := Step(s, a);
    Frames.OtherFrames(s, a);
    QueueOtherwise(s, a, id);
    ArrivalOtherwise(s, a, id);
    WorkersOtherwise(s, a);
    StaysHopeless(s, t, id);
  }

  /** This worker is of no use to a claim whose payload is stored or not. */
  predicate Useless(x: Worker, id: ClaimId, stored: bool, retries: nat) {
    !Begun(x.at, id) && (stored ==> !Retriable(x, id, retries))
  }

  lemma HopelessWorkers(s: State, id: ClaimId)
    requires id in s.log.history && |s.log.history[id]| == 1 && !Arriving(s, id)
    requires id in s.db.payloads ==> id !in s.db.list
    requires forall n | 0 <= n < |s.workers| ::
               Useless(s.workers[n], id, id in s.db.payloads, RetryCount(s.db.retry, id))
    ensures Hopeless(s, id)
  {
    forall n | 0 <= n < |s.workers|
      ensures !Begun(s.workers[n].at, id)
      ensures id in s.db.payloads ==> !Retriable(s.workers[n], id, RetryCount(s.db.retry, id))
    {
      assert Useless(s.workers[n], id, id in s.db.payloads, RetryCount(s.db.retry, id));
    }
  }

  lemma StaysHopeless(s: State, t: State, id: ClaimId)
    requires Unaided(s, id) && Hopeless(s, id) && t.log.history == s.log.history && t.db.retry == s.db.retry
    requires !Arriving(t, id) && (id in t.db.payloads ==> id in s.db.payloads) && (id in t.db.list ==> id in s.db.list)
    requires forall n | 0 <= n < |t.workers| ::
               t.workers[n].at == Pop || t.workers[n].at == Halted
               || (n < |s.workers| && t.workers[n].at == s.workers[n].at
                   && (t.workers[n].running ==> s.workers[n].running))
    ensures Hopeless(t, id)
  {
    forall n | 0 <= n < |t.workers|
      ensures Useless(t.workers[n], id, id in t.db.payloads, RetryCount(t.db.retry, id))
    {
      if n < |s.workers| {
        NobodySwaps(s, s.workers[n], id);
      }
    }
    HopelessWorkers(t, id);
  }

  lemma WorkersOtherwise(s: State, a: Action)
    requires Enabled(s, a) && !a.Create? && !a.Work? && !a.Update?
    ensures var t := Step(s, a);
            forall n | 0 <= n < |t.workers| ::
              t.workers[n].at == Pop || t.workers[n].at == Halted
              || (n < |s.workers| && t.workers[n].at == s.workers[n].at
                  && (t.workers[n].running ==> s.workers[n].running))
  {
  }

  /** Time and other claims' tokens put back by hand do not help. */
  lemma QueueOtherwise(s: State, a: Action, id: ClaimId)
    requires Enabled(s, a) && !a.Create? && !a.Work? && !a.Update?
    requires s.log.redelivered[id] == 0 && Step(s, a).log.redelivered[id] == 0
    ensures id in Step(s, a).db.list ==> id in s.db.list
  {
    if a.Redeliver? {
      assert id in LPush(s.db.list, a.id) ==> id in s.db.list;
    } else {
      Frames.OtherFrames(s, a);
    }
  }

  /** Nor do calls and deaths of callers. */
  lemma ArrivalOtherwise(s: State, a: Action, id: ClaimId)
    requires Registry.Registered(s) && id in s.log.history && !Arriving(s, id)
    requires Enabled(s, a) && !a.Create? && !a.Work? && !a.Update?
    ensures !Arriving(Step(s, a), id) && (id in Step(s, a).db.payloads ==> id in s.db.payloads)
  {
    assert id in s.log.issued && s.log.issued[id] < |s.creators|;
    PayloadsOtherwise(s, a, id);
    if !a.Call? && !a.KillCreator? {
      Frames.OutsideFrames(s, a);
    }
  }

  lemma PayloadsOtherwise(s: State, a: Action, id: ClaimId)
    requires Enabled(s, a) && !a.Create? && !a.Work? && !a.Update?
    ensures id in Step(s, a).db.payloads ==> id in s.db.payloads
  {
  }

  lemma StepKeepsHopeless(s: State, a: Action, id: ClaimId)
    requires Unaided(s, id) && Hopeless(s, id) && Step(s, a).log.redelivered[id] == 0
    ensures id in Step(s, a).log.history && Step(s, a).log.history[id] == s.log.history[id] && !Live(Step(s, a), id)
  {
    if Enabled(s, a) {
      if a.Create? {
        CreateKeepsHopeless(s, a.creator, a.outcome, a.uuid, id);
      } else if a.Work? {
        WorkKeepsHopeless(s, a.worker, a.outcome, id);
      } else {
        OtherKeepsHopeless(s, a, id);
      }
    }
  }

  /** For ever: no continuation without redelivery by hand changes the claim or makes its token live. */
  lemma {:induction false} HopelessForEver(s: State, more: seq<Action>, id: ClaimId)
    requires Reachable(s) && Hopeless(s, id) && Run(s, more).updaters == [] && Run(s, more).log.redelivered[id] == 0
    ensures Hopeless(Run(s, more), id) && Run(s, more).log.history[id] == s.log.history[id]
  {
    if more != [] {
      var front, a := more[..|more| - 1], more[|more| - 1];
      UpdatersStay(Run(s, front), a);
      Retries.RedeliveredGrows(Run(s, front), a, id);
      HopelessForEver(s, front, id);
      Runs.ReachesOn(s, front);
      ReachableUnaided(Run(s, front), id);
      StepKeepsHopeless(Run(s, front), a, id);
    }
  }

  // ---------------------------------------------------------------- how a live claim is finished

  /** An untouched claim's row is PENDING, and its version is zero. */
  lemma PendingIsUntouched(s: State, id: ClaimId)
    requires Settling(s, id) && id in s.db.rows
    ensures id in s.log.history
    ensures s.db.rows[id].status == Pending <==> |s.log.history[id]| == 1
    ensures s.db.rows[id].status == Pending ==> s.db.rows[id].version == 0
  {
    var h := s.log.history[id];
    assert History.Walk(h)[0] == Pending;
    assert |h| > 1 ==> h[|h| - 1] == Change(Target(id, |h| - 2), h[1].author);
  }

  lemma BegunFinishes(s: State, w: nat, id: ClaimId) returns (more: seq<Action>)
    requires Settling(s, id) && id in s.db.rows && s.db.rows[id].status == Pending
    requires w < |s.workers| && Begun(s.workers[w].at, id)
    ensures Concluded(s, Run(s, more), id)
  {
    PendingIsUntouched(s, id);
    BegunMatches(s, w, id);
    more := BeginFrom(s, w, id);
  }

  /** What a delivery has read of an untouched claim still holds. */
  lemma BegunMatches(s: State, w: nat, id: ClaimId)
    requires History.Chronicled(s, id) && id in s.log.history && |s.log.history[id]| == 1 && w < |s.workers|
    requires id in s.db.rows && s.db.rows[id].version == 0 && Begun(s.workers[w].at, id)
    ensures s.workers[w].at.Swap? ==> Matches(s.db.rows, id, s.workers[w].at.version)
  {
  }

  lemma BeginFrom(s: State, w: nat, id: ClaimId) returns (more: seq<Action>)
    requires id in s.db.rows && s.db.rows[id].status == Pending && w < |s.workers| && Begun(s.workers[w].at, id)
    requires s.workers[w].at.Swap? ==> Matches(s.db.rows, id, s.workers[w].at.version)
    ensures Concluded(s, Run(s, more), id)
  {
    match s.workers[w].at
    case Inspect(_) => more := FinishFromInspect(s, w, id);
    case Read(_, _) => more := FinishFromRead(s, w, id, 0);
    case Swap(_, _, _, _) => more := FinishFromSwap(s, w, id, 0);
    case Pause(_, _, until) => more := FinishFromPause(s, w, id, 0, until);
  }

  /** Where a driving worker finds its claim. */
  lemma DriverFindsClaim(s: State, w: nat, id: ClaimId)
    requires Settling(s, id) && id in s.db.rows && w < |s.workers| && Drives(s.workers[w], id)
    ensures FindsClaim(s, w, id)
  {
    var h := s.log.history[id];
    assert InStep(s.workers[w], h, s.log.events[id]);
    assert h[|h| - 1] == Change(Target(id, |h| - 2), h[1].author);
  }

  /** The worker can go on to the verdict from where it is. */
  predicate FindsClaim(s: State, w: nat, id: ClaimId)
    requires w < |s.workers|
  {
    && Drives(s.workers[w], id) && id in s.db.rows
    && var at, row := s.workers[w].at, s.db.rows[id];
    && (at.Read? || at.Pause? ==> row.status == Before(at.stage))
    && (at.Swap? ==> Matches(s.db.rows, id, at.version))
    && (at.Reread? ==> row.status == Target(id, at.stage))
  }

  lemma DriverFinishes(s: State, w: nat, id: ClaimId) returns (more: seq<Action>)
    requires w < |s.workers| && FindsClaim(s, w, id)
    ensures Concluded(s, Run(s, more), id)
  {
    match s.workers[w].at
    case Read(_, stage) => more := FinishFromRead(s, w, id, stage);
    case Swap(_, stage, _, _) => more := FinishFromSwap(s, w, id, stage);
    case Reread(_, stage) => more := FinishFromReread(s, w, id, stage);
    case Pause(_, stage, until) => more := FinishFromPause(s, w, id, stage, until);
  }

  /** The row is untouched, and the payload stored. */
  predicate Deliverable(s: State, id: ClaimId) {
    id in s.db.rows && s.db.rows[id].status == Pending && id in s.db.payloads && s.db.payloads[id].claim == id
  }

  lemma RequeueFinishes(s: State, w: nat, id: ClaimId) returns (more: seq<Action>)
    requires Deliverable(s, id) && w < |s.workers| && s.workers[w].at == Requeue(id)
    ensures Concluded(s, Run(s, more), id)
  {
    var t := OneStep(s, w);
    assert t.db.list[0] == id;
    var rest := PendingCanFinish(t, id);
    more := [Work(w, Acked)] + rest;
    FinishAfter(s, [Work(w, Acked)], rest, id);
  }

  lemma CheckFinishes(s: State, w: nat, id: ClaimId) returns (more: seq<Action>)
    requires Deliverable(s, id) && w < |s.workers| && s.workers[w].at == Check(id)
    requires RetryCount(s.db.retry, id) < MAX_ATTEMPTS
    ensures Concluded(s, Run(s, more), id)
  {
    var t := OneStep(s, w);
    var rest := RequeueFinishes(t, w, id);
    more := [Work(w, Acked)] + rest;
    FinishAfter(s, [Work(w, Acked)], rest, id);
  }

  lemma CountFinishes(s: State, w: nat, id: ClaimId) returns (more: seq<Action>)
    requires Deliverable(s, id) && w < |s.workers| && s.workers[w].at == Count(id)
    requires RetryCount(s.db.retry, id) + 1 < MAX_ATTEMPTS
    ensures Concluded(s, Run(s, more), id)
  {
    var t := OneStep(s, w);
    var rest := CheckFinishes(t, w, id);
    more := [Work(w, Acked)] + rest;
    FinishAfter(s, [Work(w, Acked)], rest, id);
  }

  lemma RetriableFinishes(s: State, w: nat, id: ClaimId) returns (more: seq<Action>)
    requires Deliverable(s, id) && w < |s.workers| && Retriable(s.workers[w], id, RetryCount(s.db.retry, id))
    ensures Concluded(s, Run(s, more), id)
  {
    match s.workers[w].at
    case Load(_) => more := FinishFromLoad(s, w, id);
    case Requeue(_) => more := RequeueFinishes(s, w, id);
    case Check(_) => more := CheckFinishes(s, w, id);
    case Count(_) => more := CountFinishes(s, w, id);
  }

  /** The next command of the claim's caller succeeds. */
  lemma CallerGoesOn(s: State, i: nat, uuid: ClaimId) returns (t: State)
    requires i < |s.creators| && !s.creators[i].at.Arm? && s.creators[i].claim.Some?
    ensures t == Run(s, [Create(i, Acked, uuid)]) && Calm(s, t)
    ensures i < |t.creators| && t.creators[i] == s.creators[i].(at := NextCreateAt(s, s.creators[i], Acked))
    ensures t.db.rows == RowsAfterCreate(s.db.rows, s.creators[i], Acked)
    ensures t.db.list == ListAfterCreate(s.db.list, s.creators[i], Acked)
    ensures t.db.payloads == PayloadsAfterCreate(s.db, s.creators[i], Acked)
  {
    Runs.RunOne(s, Create(i, Acked, uuid));
    t := Step(s, Create(i, Acked, uuid));
  }

  lemma CallerFinishes(s: State, i: nat, id: ClaimId) returns (more: seq<Action>)
    requires i < |s.creators| && s.creators[i].claim == Some(id) && id in s.db.rows && s.db.rows[id].status == Pending
    requires s.creators[i].at.MarkPending? ==> id !in s.db.markers
    requires Coming(s.creators[i].at, id in s.db.payloads)
    requires s.creators[i].at.Push? ==> s.db.payloads[id].claim == id
    ensures Concluded(s, Run(s, more), id)
    decreases match s.creators[i].at case MarkPending => 4 case MarkTtl => 3 case StorePayload => 2 case _ => 1
  {
    var go := Create(i, Acked, id);
    var t := CallerGoesOn(s, i, id);
    var rest;
    if s.creators[i].at.Push? {
      assert t.db.list[0] == id;
      rest := PendingCanFinish(t, id);
    } else {
      rest := CallerFinishes(t, i, id);
    }
    more := [go] + rest;
    FinishAfter(s, [go], rest, id);
  }

  lemma LiveFinishes(s: State, id: ClaimId) returns (more: seq<Action>)
    requires Reachable(s) && s.updaters == [] && id in s.db.rows && s.db.rows[id].status == Pending && Live(s, id)
    ensures Concluded(s, Run(s, more), id)
  {
    if n :| 0 <= n < |s.workers| && Begun(s.workers[n].at, id) {
      ReachableSettling(s, id);
      more := BegunFinishes(s, n, id);
    } else if id in s.db.payloads && InQueueOrHand(s, id) {
      ReachableDeliverable(s, id);
      more := WaitingFinishes(s, id);
    } else {
      more := ArrivingFinishes(s, id);
    }
  }

  lemma ReachableDeliverable(s: State, id: ClaimId)
    requires Reachable(s) && id in s.db.payloads
    ensures s.db.payloads[id].claim == id
  {
    var limit, actions :| s == Run(Init(limit), actions);
    AlwaysPayloads(limit, actions);
  }

  lemma WaitingFinishes(s: State, id: ClaimId) returns (more: seq<Action>)
    requires Deliverable(s, id) && InQueueOrHand(s, id)
    ensures Concluded(s, Run(s, more), id)
  {
    if id in s.db.list {
      more := PendingCanFinish(s, id);
    } else {
      var n :| 0 <= n < |s.workers| && Retriable(s.workers[n], id, RetryCount(s.db.retry, id));
      more := RetriableFinishes(s, n, id);
    }
  }

  lemma ArrivingFinishes(s: State, id: ClaimId) returns (more: seq<Action>)
    requires Reachable(s) && id in s.db.rows && s.db.rows[id].status == Pending && Arriving(s, id)
    ensures Concluded(s, Run(s, more), id)
  {
    var limit, actions :| s == Run(Init(limit), actions);
    Registry.AlwaysRegistered(limit, actions);
    Outcomes.AlwaysQueued(limit, actions);
    assert id in s.db.markers ==> Outcomes.MarkedByItsCaller(s, id);
    if id in s.db.payloads {
      ReachableDeliverable(s, id);
    }
    more := CallerFinishes(s, s.log.issued[id], id);
  }

  // ---------------------------------------------------------------- the exact condition

  lemma ConcludedFinishes(s: State, more: seq<Action>, id: ClaimId)
    requires s.updaters == [] && s.log.redelivered[id] == 0 && Concluded(s, Run(s, more), id)
    ensures FinishesUnaided(s, more, id)
  {
  }

  /** Exactly which claims can still get to a verdict when nobody puts them back by hand: for all
      reachable states, whatever has failed, stopped or died before. */
  lemma FinishesExactlyWhenLive(s: State, id: ClaimId)
    requires Reachable(s) && s.updaters == [] && s.log.redelivered[id] == 0 && id in s.db.rows
    ensures (exists more :: FinishesUnaided(s, more, id)) <==> CanFinish(s, id)
  {
    ReachableSettling(s, id);
    if CanFinish(s, id) {
      var more := CanFinishDoes(s, id);
    } else {
      forall more ensures !FinishesUnaided(s, more, id) {
        CannotFinish(s, more, id);
      }
    }
  }

  lemma CanFinishDoes(s: State, id: ClaimId) returns (more: seq<Action>)
    requires Reachable(s) && s.updaters == [] && s.log.redelivered[id] == 0 && id in s.db.rows && CanFinish(s, id)
    ensures FinishesUnaided(s, more, id)
  {
    ReachableSettling(s, id);
    more := [];
    if !Terminal(s.db.rows[id].status) {
      if SomeDriver(s, id) {
        var n :| 0 <= n < |s.workers| && Drives(s.workers[n], id);
        DriverFindsClaim(s, n, id);
        more := DriverFinishes(s, n, id);
      } else {
        more := LiveFinishes(s, id);
      }
      ConcludedFinishes(s, more, id);
    }
  }

  lemma CannotFinish(s: State, more: seq<Action>, id: ClaimId)
    requires Reachable(s) && s.updaters == [] && s.log.redelivered[id] == 0 && id in s.db.rows && !CanFinish(s, id)
    ensures !FinishesUnaided(s, more, id)
  {
    var t := Run(s, more);
    if t.updaters == [] && t.log.redelivered[id] == 0 && id in t.db.rows {
      ReachableSettling(s, id);
      PendingIsUntouched(s, id);
      StatusTellsLength(s, id);
      Runs.ReachesOn(s, more);
      ReachableSettling(t, id);
      PendingIsUntouched(t, id);
      StatusTellsLength(t, id);
      if s.db.rows[id].status == Pending {
        HopelessForEver(s, more, id);
      } else {
        StrandedForEver(s, more, id);
      }
    }
  }
}
