/** How deliveries can go on from here: the continuations that take a claim to its verdict. */
module Continuations {
  import opened Basics
  import opened IdempotencyKeys
  import opened Lifecycle
  import opened ClaimSystem
  import Runs

  // ---------------------------------------------------------------- taking a token off the list

  /** Workers took identifiers off the list, and nothing else happened. */
  predicate Fetched(s: State, t: State) {
    && t.db == s.db.(list := t.db.list) && t.creators == s.creators && t.updaters == s.updaters
    && t.log.history == s.log.history && t.log.retired == s.log.retired && t.log.redelivered == s.log.redelivered
    && t.log.dropped == s.log.dropped
  }

  /** Enough workers take the list down to this identifier. */
  lemma {:induction false} FetchToken(s: State, id: ClaimId) returns (actions: seq<Action>, w: nat)
    requires id in s.db.list
    ensures var t := Run(s, actions);
            Fetched(s, t) && w < |t.workers| && t.workers[w].at == Load(id) && t.workers[w].running
    decreases |s.db.list|
  {
    w := |s.workers|;
    actions := [Boot, Work(w, Acked)];
    var t := PopWithNewWorker(s);
    if Last(s.db.list) != id {
      NotTheLast(s.db.list, id);
      var rest;
      rest, w := FetchToken(t, id);
      Runs.RunConcat(s, actions, rest);
      FetchedOn(s, t, Run(t, rest));
      actions := actions + rest;
    }
  }

  lemma NotTheLast(list: seq<ClaimId>, id: ClaimId)
    requires id in list && Last(list) != id
    ensures id in list[..|list| - 1]
  {
  }

  lemma FetchedOn(s: State, t: State, u: State)
    requires Fetched(s, t) && Fetched(t, u)
    ensures Fetched(s, u)
  {
  }

  lemma PopsLast(s: State, m: State)
    requires s.db.list != [] && m == s.(workers := s.workers + [Worker(true, 0, Pop)])
    ensures var t := WorkStep(m, |s.workers|, Acked);
            && Fetched(s, t) && t.db.list == s.db.list[..|s.db.list| - 1] && |t.workers| == |s.workers| + 1
            && t.workers[|s.workers|].at == Load(Last(s.db.list)) && t.workers[|s.workers|].running
  {
    assert m.workers[|s.workers|] == Worker(true, 0, Pop);
  }

  lemma PopWithNewWorker(s: State) returns (t: State)
    requires s.db.list != []
    ensures t == Run(s, [Boot, Work(|s.workers|, Acked)])
    ensures Fetched(s, t) && t.db.list == s.db.list[..|s.db.list| - 1]
    ensures |t.workers| == |s.workers| + 1
    ensures t.workers[|s.workers|].at == Load(Last(s.db.list)) && t.workers[|s.workers|].running
  {
    Runs.RunTwo(s, Boot, Work(|s.workers|, Acked));
    var m := Step(s, Boot);
    t := Step(m, Work(|s.workers|, Acked));
    PopsLast(s, m);
  }

  // ---------------------------------------------------------------- one delivery, step by step

  /** The worker stands here, and the claim's row shows this status. */
  predicate Stands(s: State, w: nat, at: WorkAt, id: ClaimId, status: Status) {
    w < |s.workers| && s.workers[w].at == at && id in s.db.rows && s.db.rows[id].status == status
  }

  /** Other updaters and redeliveries stayed away, and no token was lost. */
  predicate Calm(s: State, t: State) {
    t.updaters == s.updaters && t.log.redelivered == s.log.redelivered && t.log.dropped == s.log.dropped
  }

  /** The claim has its verdict, and its token is retired. */
  predicate Concluded(s: State, t: State, id: ClaimId) {
    Calm(s, t) && id in t.log.retired && id in t.db.rows && t.db.rows[id].status == Decision(id)
  }

  /** The status a claim has when a delivery asks for its next one at this stage. */
  function Before(stage: Stage): Status {
    match stage
    case 0 => Pending
    case 1 => Processing
    case 2 => FraudChecking
  }

  /** The worker's next command succeeds. */
  lemma GoOn(s: State, w: nat)
    requires w < |s.workers| && Drops(s, s.workers[w], Acked).None?
    ensures var x, t := s.workers[w], Step(s, Work(w, Acked));
            && Calm(s, t) && w < |t.workers| && t.workers[w] == NextWorker(s, x, Acked)
            && t.db.rows == RowsAfterWork(s.db.rows, x, Acked) && t.db.list == ListAfterWork(s, x, Acked)
            && t.db.payloads == s.db.payloads && t.db.now == s.db.now
            && t.db.retry == RetryAfterWork(s.db.retry, x, Acked)
            && t.log.retired == s.log.retired + Bag(Retires(s, x, Acked))
  {
  }

  /** A continuation is put in front of a finishing one. */
  lemma FinishAfter(s: State, front: seq<Action>, rest: seq<Action>, id: ClaimId)
    requires Calm(s, Run(s, front)) && Concluded(Run(s, front), Run(Run(s, front), rest), id)
    ensures Concluded(s, Run(s, front + rest), id)
  {
    Runs.RunConcat(s, front, rest);
  }

  lemma OneStep(s: State, w: nat) returns (t: State)
    requires w < |s.workers| && Drops(s, s.workers[w], Acked).None?
    ensures t == Run(s, [Work(w, Acked)]) && Calm(s, t) && t.db.now == s.db.now && t.db.payloads == s.db.payloads
    ensures w < |t.workers| && t.workers[w] == NextWorker(s, s.workers[w], Acked)
    ensures t.db.rows == RowsAfterWork(s.db.rows, s.workers[w], Acked)
    ensures t.db.list == ListAfterWork(s, s.workers[w], Acked)
    ensures t.db.retry == RetryAfterWork(s.db.retry, s.workers[w], Acked)
    ensures t.log.retired == s.log.retired + Bag(Retires(s, s.workers[w], Acked))
  {
    Runs.RunOne(s, Work(w, Acked));
    GoOn(s, w);
    t := Step(s, Work(w, Acked));
  }

  lemma FinishFromRead(s: State, w: nat, id: ClaimId, stage: Stage) returns (actions: seq<Action>)
    requires Stands(s, w, Read(id, stage), id, Before(stage))
    ensures Concluded(s, Run(s, actions), id)
    decreases 2 - stage, 3
  {
    var t := OneStep(s, w);
    var rest := FinishFromSwap(t, w, id, stage);
    actions := [Work(w, Acked)] + rest;
    FinishAfter(s, [Work(w, Acked)], rest, id);
  }

  lemma FinishFromSwap(s: State, w: nat, id: ClaimId, stage: Stage) returns (actions: seq<Action>)
    requires w < |s.workers| && s.workers[w].at.Swap? && s.workers[w].at.id == id && s.workers[w].at.stage == stage
    requires Matches(s.db.rows, id, s.workers[w].at.version)
    ensures Concluded(s, Run(s, actions), id)
    decreases 2 - stage, 2
  {
    var t := OneStep(s, w);
    var rest := FinishFromReread(t, w, id, stage);
    actions := [Work(w, Acked)] + rest;
    FinishAfter(s, [Work(w, Acked)], rest, id);
  }

  lemma FinishFromReread(s: State, w: nat, id: ClaimId, stage: Stage) returns (actions: seq<Action>)
    requires Stands(s, w, Reread(id, stage), id, Target(id, stage))
    ensures Concluded(s, Run(s, actions), id)
    decreases 2 - stage, 1
  {
    var t := OneStep(s, w);
    actions := [Work(w, Acked)];
    if stage < 2 {
      var rest := FinishFromPause(t, w, id, stage + 1, s.db.now + STAGE_DELAY);
      FinishAfter(s, actions, rest, id);
      actions := actions + rest;
    }
  }

  lemma FinishFromPause(s: State, w: nat, id: ClaimId, stage: Stage, until: nat) returns (actions: seq<Action>)
    requires Stands(s, w, Pause(id, stage, until), id, Before(stage))
    ensures Concluded(s, Run(s, actions), id)
    decreases 2 - stage, 4
  {
    Runs.RunOne(s, Tick(until));
    var m := Run(s, [Tick(until)]);
    var t := OneStep(m, w);
    Runs.RunConcat(s, [Tick(until)], [Work(w, Acked)]);
    var rest := FinishFromRead(t, w, id, stage);
    actions := ([Tick(until)] + [Work(w, Acked)]) + rest;
    FinishAfter(s, [Tick(until)] + [Work(w, Acked)], rest, id);
  }

  lemma FinishFromInspect(s: State, w: nat, id: ClaimId) returns (actions: seq<Action>)
    requires Stands(s, w, Inspect(id), id, Pending)
    ensures Concluded(s, Run(s, actions), id)
  {
    var t := OneStep(s, w);
    var rest := FinishFromRead(t, w, id, 0);
    actions := [Work(w, Acked)] + rest;
    FinishAfter(s, [Work(w, Acked)], rest, id);
  }

  lemma FinishFromLoad(s: State, w: nat, id: ClaimId) returns (actions: seq<Action>)
    requires Stands(s, w, Load(id), id, Pending) && s.workers[w].running
    requires id in s.db.payloads && s.db.payloads[id].claim == id
    ensures Concluded(s, Run(s, actions), id)
  {
    var t := OneStep(s, w);
    var rest := FinishFromInspect(t, w, id);
    actions := [Work(w, Acked)] + rest;
    FinishAfter(s, [Work(w, Acked)], rest, id);
  }

  /** A queued claim that is still PENDING can be finished: some continuation, without a failure, a
      stop or a redelivery, takes it to its verdict and retires its token. */
  lemma PendingCanFinish(s: State, id: ClaimId) returns (actions: seq<Action>)
    requires id in s.db.list && id in s.db.payloads && s.db.payloads[id].claim == id
    requires id in s.db.rows && s.db.rows[id].status == Pending
    ensures Concluded(s, Run(s, actions), id)
  {
    var fetch, w := FetchToken(s, id);
    var rest := FinishFromLoad(Run(s, fetch), w, id);
    actions := fetch + rest;
    FinishAfter(s, fetch, rest, id);
  }
}
