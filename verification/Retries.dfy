/** How often a claim is worked on, and why the queue drains. */
module Retries {
  import opened Basics
  import opened IdempotencyKeys
  import opened ClaimSystem
  import Frames
  import Registry
  import opened Tokens

  /** A delivery has begun for this token and has not been counted as failed. */
  function Spent(at: WorkAt): nat {
    if at.Inspect? || at.Read? || at.Swap? || at.Reread? || at.Pause? || at.Count? then 1 else 0
  }

  function Deliveries(s: State, id: ClaimId): nat {
    multiset(s.log.runs)[id]
  }

  /** What a worker that holds the token knows about the claim's attempts. */
  predicate Counted(at: WorkAt, deliveries: nat, retries: nat) {
    && deliveries == retries + Spent(at)
    && deliveries <= MAX_ATTEMPTS
    && (at.Load? || at.Requeue? ==> retries < MAX_ATTEMPTS)
    && (at.Bury? ==> retries == MAX_ATTEMPTS)
  }

  /** The retry counter and the deliveries of one claim, wherever its token is. */
  predicate Tried(s: State, id: ClaimId) {
    var deliveries, retries := Deliveries(s, id), RetryCount(s.db.retry, id);
    && deliveries <= MAX_ATTEMPTS
    && (s.log.added[id] == 0 ==> deliveries == retries == 0)
    && (id in s.db.list ==> deliveries == retries < MAX_ATTEMPTS)
    && (id in s.db.dlq ==> deliveries == MAX_ATTEMPTS)
    && (forall n | 0 <= n < |s.workers| && Token(s.workers[n].at) == Some(id) ::
          Counted(s.workers[n].at, deliveries, retries))
    && (forall n | 0 <= n < |s.workers| && s.workers[n].at == Forget(id) :: id in s.db.dlq)
  }

  /** At most one place for the token. */
  lemma HolderAlone(s: State, id: ClaimId, w: nat)
    requires TokenCount(s, id) <= 1 && w < |s.workers| && Token(s.workers[w].at) == Some(id)
    ensures id !in s.db.list && id !in s.db.dlq
    ensures forall n | 0 <= n < |s.workers| && n != w :: Token(s.workers[n].at) != Some(id)
  {
    var hs := Holdings(s.workers, id);
    SumAtLeastOne(hs, w);
    forall n | 0 <= n < |s.workers| && n != w ensures Token(s.workers[n].at) != Some(id) {
      if n < w { SumAtLeastTwo(hs, n, w); } else { SumAtLeastTwo(hs, w, n); }
    }
  }

  lemma WaitsAlone(s: State, id: ClaimId)
    requires TokenCount(s, id) <= 1 && (id in s.db.list || id in s.db.dlq)
    ensures forall n | 0 <= n < |s.workers| :: Token(s.workers[n].at) != Some(id)
    ensures !(id in s.db.list && id in s.db.dlq)
    ensures multiset(s.db.list)[id] <= 1
  {
    var hs := Holdings(s.workers, id);
    forall n | 0 <= n < |s.workers| ensures Token(s.workers[n].at) != Some(id) {
      SumAtLeastOne(hs, n);
    }
  }

  /** A worker's own step keeps the attempts of the claim in its hand in order. */
  lemma OwnStepCounts(s: State, x: Worker, o: Outcome, id: ClaimId)
    requires Token(x.at) == Some(id) && PayloadsNameTheirClaim(s)
    requires Counted(x.at, Deliveries(s, id), RetryCount(s.db.retry, id))
    ensures var deliveries := Deliveries(s, id) + (if Delivers(s, x, o) then 1 else 0);
            var retries := RetryCount(RetryAfterWork(s.db.retry, x, o), id);
            && deliveries <= MAX_ATTEMPTS
            && (Token(NextWorkAt(s, x, o)) == Some(id) ==> Counted(NextWorkAt(s, x, o), deliveries, retries))
            && (PutsBack(x, o) ==> deliveries == retries < MAX_ATTEMPTS)
  {
  }

  lemma DeliveryCounts(s: State, w: nat, o: Outcome, id: ClaimId)
    requires w < |s.workers| && PayloadsNameTheirClaim(s)
    ensures Deliveries(WorkStep(s, w, o), id) == Deliveries(s, id)
              + (if Delivers(s, s.workers[w], o) && s.workers[w].at.id == id then 1 else 0)
  {
  }

  lemma HolderTries(s: State, w: nat, o: Outcome, id: ClaimId)
    requires Tried(s, id) && TokenCount(s, id) <= 1 && PayloadsNameTheirClaim(s)
    requires w < |s.workers| && Token(s.workers[w].at) == Some(id) && s.log.added[id] >= 1
    ensures Tried(WorkStep(s, w, o), id)
  {
    var x, t := s.workers[w], WorkStep(s, w, o);
    Frames.WorkFrames(s, w, o);
    HolderAlone(s, id, w);
    OwnStepCounts(s, x, o, id);
    DeliveryCounts(s, w, o, id);
    HolderListAndDlq(s, w, o, id);
  }

  lemma HolderListAndDlq(s: State, w: nat, o: Outcome, id: ClaimId)
    requires w < |s.workers| && Token(s.workers[w].at) == Some(id) && id !in s.db.list && id !in s.db.dlq
    ensures id in WorkStep(s, w, o).db.list <==> PutsBack(s.workers[w], o)
    ensures NextWorkAt(s, s.workers[w], o) == Forget(id) ==> id in WorkStep(s, w, o).db.dlq
    ensures id in WorkStep(s, w, o).db.dlq ==> s.workers[w].at.Bury?
  {
  }

  /** A worker that takes the token off the list finds its attempts as the list left them. */
  lemma TakerTries(s: State, w: nat, o: Outcome, id: ClaimId)
    requires Tried(s, id) && TokenCount(s, id) <= 1 && PayloadsNameTheirClaim(s)
    requires w < |s.workers| && Takes(s, s.workers[w], o) && Last(s.db.list) == id && s.log.added[id] >= 1
    ensures Tried(WorkStep(s, w, o), id)
  {
    var t := WorkStep(s, w, o);
    Frames.WorkFrames(s, w, o);
    assert id in s.db.list;
    WaitsAlone(s, id);
    ListMoves(s, s.workers[w], o, id);
    DeliveryCounts(s, w, o, id);
  }

  /** Nobody else's step matters to the claim, save the removal of a buried claim's counter. */
  lemma StrangerTries(s: State, w: nat, o: Outcome, id: ClaimId)
    requires Tried(s, id) && TokenCount(s, id) <= 1 && PayloadsNameTheirClaim(s) && w < |s.workers|
    requires Token(s.workers[w].at) != Some(id) && !(Takes(s, s.workers[w], o) && Last(s.db.list) == id)
    requires s.workers[w].at.Forget? && s.workers[w].at.id == id ==> s.log.added[id] >= 1
    ensures Tried(WorkStep(s, w, o), id)
  {
    var x, t := s.workers[w], WorkStep(s, w, o);
    Frames.WorkFrames(s, w, o);
    DeliveryCounts(s, w, o, id);
    StrangerTouchesNothing(s, x, o, id);
    if x.at == Forget(id) {
      WaitsAlone(s, id);
    }
  }

  lemma StrangerTouchesNothing(s: State, x: Worker, o: Outcome, id: ClaimId)
    requires Token(x.at) != Some(id) && !(Takes(s, x, o) && Last(s.db.list) == id)
    ensures id in ListAfterWork(s, x, o) ==> id in s.db.list
    ensures id in DlqAfterWork(s.db.dlq, x, o) ==> id in s.db.dlq
    ensures Token(NextWorkAt(s, x, o)) != Some(id) || (Delivers(s, x, o) && s.db.payloads[x.at.id].claim == id)
    ensures NextWorkAt(s, x, o) != Forget(id) || x.at == Forget(id)
    ensures x.at != Forget(id) ==> RetryCount(RetryAfterWork(s.db.retry, x, o), id) == RetryCount(s.db.retry, id)
    ensures !(Delivers(s, x, o) && x.at.id == id)
  {
  }

  lemma WorkTries(s: State, w: nat, o: Outcome, id: ClaimId)
    requires Tried(s, id) && TokenCount(s, id) == s.log.added[id] <= 1 && PayloadsNameTheirClaim(s) && w < |s.workers|
    ensures Tried(WorkStep(s, w, o), id)
  {
    var x := s.workers[w];
    if Token(x.at) == Some(id) {
      SumAtLeastOne(Holdings(s.workers, id), w);
      HolderTries(s, w, o, id);
    } else if Takes(s, x, o) && Last(s.db.list) == id {
      ListCounts(s.db.list, id, id);
      TakerTries(s, w, o, id);
    } else {
      StrangerTries(s, w, o, id);
    }
  }

  lemma CreateTries(s: State, i: nat, o: Outcome, uuid: ClaimId, id: ClaimId)
    requires Tried(s, id) && TokenCount(s, id) == s.log.added[id]
    requires i < |s.creators| && (Enqueues(s.creators[i], o) ==> s.creators[i].claim.value !in s.log.added)
    ensures Tried(CreateStep(s, i, o, uuid), id)
  {
    Frames.CreateFrames(s, i, o, uuid);
    var c, t := s.creators[i], CreateStep(s, i, o, uuid);
    if Enqueues(c, o) && c.claim.value == id {
      assert s.log.added[id] == 0;
      forall n | 0 <= n < |t.workers| ensures Token(t.workers[n].at) != Some(id) {
        SumAtLeastOne(Holdings(s.workers, id), n);
      }
    }
  }

  lemma EnqueuedIsNew(s: State, i: nat, o: Outcome)
    requires Registry.Registered(s) && PushedOnce(s) && i < |s.creators| && Enqueues(s.creators[i], o)
    ensures s.creators[i].claim.value !in s.log.added
  {
    assert Registry.Placed(s, s.creators[i]);
  }

  lemma KillTries(s: State, w: nat, id: ClaimId)
    requires Tried(s, id) && w < |s.workers|
    ensures Tried(KillWorkerStep(s, w), id)
  {
  }

  /** Steps that leave the claim's queue entry, counter and deliveries alone, and give no worker its token. */
  lemma QuietTries(s: State, t: State, id: ClaimId)
    requires Tried(s, id)
    requires t.db.list == s.db.list && t.db.dlq == s.db.dlq && t.db.retry == s.db.retry
    requires t.log.runs == s.log.runs && t.log.added == s.log.added
    requires forall n | 0 <= n < |t.workers| ::
               (n < |s.workers| && t.workers[n].at == s.workers[n].at) || t.workers[n].at == Pop
    ensures Tried(t, id)
  {
  }

  lemma StepTries(s: State, a: Action, id: ClaimId)
    requires Registry.Registered(s) && PushedOnce(s) && PayloadsNameTheirClaim(s)
    requires Tried(s, id) && TokenCount(s, id) == s.log.added[id] <= 1 && Step(s, a).log.redelivered[id] == 0
    ensures Tried(Step(s, a), id)
  {
    if Enabled(s, a) {
      if a.Create? {
        if Enqueues(s.creators[a.creator], a.outcome) {
          EnqueuedIsNew(s, a.creator, a.outcome);
        }
        CreateTries(s, a.creator, a.outcome, a.uuid, id);
      } else if a.Work? {
        WorkTries(s, a.worker, a.outcome, id);
      } else if a.KillWorker? {
        KillTries(s, a.worker, id);
      } else if a.Redeliver? {
        RedeliverTries(s, a.id, id);
      } else if a.Update? {
        Frames.UpdateFrames(s, a.updater, a.outcome);
        QuietTries(s, Step(s, a), id);
      } else {
        Frames.OtherFrames(s, a);
        QuietTries(s, Step(s, a), id);
      }
    }
  }

  /** A token of another claim put back by hand. */
  lemma RedeliverTries(s: State, pushed: ClaimId, id: ClaimId)
    requires Tried(s, id) && pushed != id
    ensures Tried(RedeliverStep(s, pushed), id)
  {
    var t := RedeliverStep(s, pushed);
    assert id in t.db.list ==> id in s.db.list;
  }

  lemma RedeliveredGrows(s: State, a: Action, id: ClaimId)
    ensures s.log.redelivered[id] <= Step(s, a).log.redelivered[id]
  {
    if Enabled(s, a) {
      match a
      case Create(i, o, uuid) => Frames.CreateFrames(s, i, o, uuid);
      case Work(w, o) => Frames.WorkFrames(s, w, o);
      case Update(u, o) => Frames.UpdateFrames(s, u, o);
      case _ =>
    }
  }

  lemma TriedOn(s: State, a: Action, id: ClaimId)
    requires Reachable(s) && Tried(s, id) && s.log.redelivered[id] == 0 && Step(s, a).log.redelivered[id] == 0
    ensures Tried(Step(s, a), id)
  {
    var limit, actions :| s == Run(Init(limit), actions);
    Registry.AlwaysRegistered(limit, actions);
    AlwaysPushedOnce(limit, actions);
    AlwaysPayloads(limit, actions);
    OneToken(s, id);
    StepTries(s, a, id);
  }

  /** In every reachable state, a claim nobody has put back by hand has been delivered at most
      three times, and its retry counter says how often. */
  lemma {:induction false} AlwaysTried(limit: nat, actions: seq<Action>, id: ClaimId)
    requires Run(Init(limit), actions).log.redelivered[id] == 0
    ensures Tried(Run(Init(limit), actions), id)
  {
    if actions != [] {
      var front, a := actions[..|actions| - 1], actions[|actions| - 1];
      RedeliveredGrows(Run(Init(limit), front), a, id);
      AlwaysTried(limit, front, id);
      TriedOn(Run(Init(limit), front), a, id);
    }
  }

  /** A claim is dead-lettered after exactly three deliveries, and waits in the queue only before. */
  lemma BuriedAfterThree(s: State, id: ClaimId)
    requires Reachable(s) && s.log.redelivered[id] == 0
    ensures id in s.db.dlq ==> Deliveries(s, id) == MAX_ATTEMPTS
    ensures id in s.db.list ==> Deliveries(s, id) < MAX_ATTEMPTS
  {
    var limit, actions :| s == Run(Init(limit), actions);
    AlwaysTried(limit, actions, id);
  }

  /** The drain bound: n claims take at most 3n deliveries, in any run without redelivery. */
  lemma DeliveriesBounded(s: State)
    requires Reachable(s) && s.log.redelivered == multiset{}
    ensures |s.log.runs| <= MAX_ATTEMPTS * |s.log.added|
  {
    var limit, actions :| s == Run(Init(limit), actions);
    forall id ensures multiset(s.log.runs)[id] <= (s.log.added + s.log.added + s.log.added)[id] {
      AlwaysTried(limit, actions, id);
    }
    SubMultisetSize(multiset(s.log.runs), s.log.added + s.log.added + s.log.added);
  }
}
