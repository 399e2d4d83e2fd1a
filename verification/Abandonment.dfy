/** Claims whose token is gone, and runs in which claims get stranded or abandoned. */
module Abandonment {
  import opened Basics
  import opened IdempotencyKeys
  import opened Lifecycle
  import opened ClaimSystem
  import Frames
  import Registry
  import opened Runs
  import History
  import opened Tokens
  import opened Retries
  import Ownership
  import opened Stranding
  import opened Continuations
  import opened Finishing

  // ---------------------------------------------------------------- a token that is gone

  /** The claim's token is dead-lettered, retired or lost. */
  predicate Spent(s: State, id: ClaimId) {
    multiset(s.db.dlq)[id] + s.log.retired[id] + s.log.dropped[id] >= 1
  }

  /** With at most one token there is nothing left of it in the queue or in a hand. */
  lemma SpentIsGone(s: State, id: ClaimId)
    requires Spent(s, id) && TokenCount(s, id) <= 1
    ensures id !in s.db.list && forall n | 0 <= n < |s.workers| :: Token(s.workers[n].at) != Some(id)
  {
    var hs := Holdings(s.workers, id);
    forall n | 0 <= n < |s.workers| ensures Token(s.workers[n].at) != Some(id) {
      SumAtLeastOne(hs, n);
    }
  }

  lemma WorkKeepsSpent(s: State, w: nat, o: Outcome, id: ClaimId)
    requires Spent(s, id) && TokenCount(s, id) <= 1 && id in s.log.history && w < |s.workers|
    ensures var t := WorkStep(s, w, o);
            Spent(t, id) && id in t.log.history && t.log.history[id] == s.log.history[id]
  {
    SpentIsGone(s, id);
    History.OthersUntouched(s, s.workers[w], o, id);
    SpentGrows(s, s.workers[w], o, id);
  }

  lemma SpentGrows(s: State, x: Worker, o: Outcome, id: ClaimId)
    ensures multiset(s.db.dlq)[id] <= multiset(DlqAfterWork(s.db.dlq, x, o))[id]
    ensures s.log.retired[id] <= LogAfterWork(s, x, o).retired[id]
    ensures s.log.dropped[id] <= LogAfterWork(s, x, o).dropped[id]
  {
    if x.at.Bury? {
      ListCounts(s.db.dlq, id, x.at.id);
    }
  }

  lemma StepKeepsSpent(s: State, a: Action, id: ClaimId)
    requires Spent(s, id) && TokenCount(s, id) <= 1 && id in s.log.history && Registry.Registered(s) && s.updaters == []
    ensures var t := Step(s, a);
            Spent(t, id) && id in t.log.history && t.log.history[id] == s.log.history[id]
  {
    if Enabled(s, a) {
      if a.Create? {
        Frames.CreateFrames(s, a.creator, a.outcome, a.uuid);
        assert Registry.Placed(s, s.creators[a.creator]);
      } else if a.Work? {
        WorkKeepsSpent(s, a.worker, a.outcome, id);
      } else if a.KillWorker? {
        SpentIsGone(s, id);
      } else {
        Frames.OtherFrames(s, a);
        Frames.OtherLedger(s, a);
      }
    }
  }

  /** Once the token is gone, no continuation without redelivery of the claim by hand changes the
      claim's record, whatever its status, or brings the token back. */
  lemma {:induction false} AbandonedForEver(s: State, more: seq<Action>, id: ClaimId)
    requires Reachable(s) && id in s.log.history && Spent(s, id)
    requires Run(s, more).updaters == [] && Run(s, more).log.redelivered[id] == 0
    ensures var t := Run(s, more);
            && Spent(t, id) && id in t.log.history && t.log.history[id] == s.log.history[id]
            && id !in t.db.list && forall n | 0 <= n < |t.workers| :: Token(t.workers[n].at) != Some(id)
  {
    if more != [] {
      var front, a := more[..|more| - 1], more[|more| - 1];
      Ownership.UpdatersStay(Run(s, front), a);
      RedeliveredGrows(Run(s, front), a, id);
      AbandonedForEver(s, front, id);
      ReachesOn(s, front);
      Registry.ReachableRegistered(Run(s, front));
      OneToken(Run(s, front), id);
      StepKeepsSpent(Run(s, front), a, id);
    }
    ReachesOn(s, more);
    OneToken(Run(s, more), id);
    SpentIsGone(Run(s, more), id);
  }

  /** So an abandoned claim that has no verdict never gets one. */
  lemma AbandonedCannotFinish(s: State, id: ClaimId)
    requires Reachable(s) && s.updaters == [] && s.log.redelivered[id] == 0 && id in s.db.rows && Spent(s, id)
    ensures CanFinish(s, id) <==> Terminal(s.db.rows[id].status)
  {
    Registry.ReachableRegistered(s);
    OneToken(s, id);
    SpentIsGone(s, id);
    NoArrival(s, id);
    assert !SomeDriver(s, id) && !Live(s, id);
  }

  /** A token that is gone had been pushed, so its caller is past its push. */
  lemma NoArrival(s: State, id: ClaimId)
    requires Reachable(s) && s.log.redelivered[id] == 0 && Spent(s, id)
    ensures !Arriving(s, id)
  {
    var limit, actions :| s == Run(Init(limit), actions);
    OneToken(s, id);
    AlwaysPushedOnce(limit, actions);
    assert PushedByItsCaller(s, id);
  }

  // ---------------------------------------------------------------- with redelivery by hand

  /** This continuation, with workers as the only updaters, gets the claim to a verdict; it may put
      claims back by hand. */
  predicate Finishes(s: State, more: seq<Action>, id: ClaimId) {
    var t := Run(s, more);
    t.updaters == [] && id in t.db.rows && Terminal(t.db.rows[id].status)
  }

  /** Exactly which claims, once no delivery is driving them, can still get to a verdict when they
      may be put back by hand: those that are not half-way. */
  lemma FinishesExactlyUnlessHalfway(s: State, id: ClaimId)
    requires Reachable(s) && s.updaters == [] && id in s.db.rows && id in s.db.payloads
    requires forall n | 0 <= n < |s.workers| :: !Ownership.Drives(s.workers[n], id)
    ensures (exists more :: Finishes(s, more, id)) <==> s.db.rows[id].status !in {Processing, FraudChecking}
  {
    ReachableSettling(s, id);
    StatusTellsLength(s, id);
    if s.db.rows[id].status == Pending {
      var more := PushAndFinish(s, id);
    } else if Terminal(s.db.rows[id].status) {
      assert Finishes(s, [], id);
    } else {
      forall more ensures !Finishes(s, more, id) {
        HalfwayNeverFinishes(s, more, id);
      }
    }
  }

  lemma PushAndFinish(s: State, id: ClaimId) returns (more: seq<Action>)
    requires Reachable(s) && s.updaters == [] && id in s.db.payloads
    requires id in s.db.rows && s.db.rows[id].status == Pending
    ensures Finishes(s, more, id)
  {
    var limit, actions :| s == Run(Init(limit), actions);
    AlwaysPayloads(limit, actions);
    RunOne(s, Redeliver(id));
    var finish := PendingCanFinish(Step(s, Redeliver(id)), id);
    more := [Redeliver(id)] + finish;
    RunConcat(s, [Redeliver(id)], finish);
  }

  lemma HalfwayNeverFinishes(s: State, more: seq<Action>, id: ClaimId)
    requires Reachable(s) && s.updaters == [] && Stranded(s, id)
    ensures !Finishes(s, more, id)
  {
    var t := Run(s, more);
    if t.updaters == [] && id in t.db.rows {
      StrandedForEver(s, more, id);
      ReachesOn(s, more);
      ReachableSettling(t, id);
      StatusTellsLength(t, id);
    }
  }

  // ---------------------------------------------------------------- how it comes to that

  /** An untouched claim in the queue, with its payload. */
  predicate Queued(s: State, id: ClaimId) {
    Deliverable(s, id) && id in s.db.list
  }

  lemma BeginDelivery(s: State, id: ClaimId) returns (actions: seq<Action>, w: nat)
    requires Queued(s, id)
    ensures var t := Run(s, actions);
            Calm(s, t) && Deliverable(t, id) && Stands(t, w, Inspect(id), id, Pending) && t.db.retry == s.db.retry
  {
    var fetch;
    fetch, w := FetchToken(s, id);
    var t := OneStep(Run(s, fetch), w);
    actions := fetch + [Work(w, Acked)];
    RunConcat(s, fetch, [Work(w, Acked)]);
  }

  /** Looking, reading and updating, up to the second read. */
  lemma UpToReread(m: State, w: nat, id: ClaimId) returns (actions: seq<Action>)
    requires Stands(m, w, Inspect(id), id, Pending)
    ensures var t := Run(m, actions); Calm(m, t) && Stands(t, w, Reread(id, 0), id, Processing)
  {
    var go := Work(w, Acked);
    var one := OneStep(m, w);
    var two := ReadThenSwap(one, w, id);
    actions := [go] + ([go] + [go]);
    RunConcat(m, [go], [go] + [go]);
  }

  lemma ReadThenSwap(m: State, w: nat, id: ClaimId) returns (t: State)
    requires Stands(m, w, Read(id, 0), id, Pending)
    ensures t == Run(m, [Work(w, Acked)] + [Work(w, Acked)])
    ensures Calm(m, t) && Stands(t, w, Reread(id, 0), id, Processing)
  {
    var one := OneStep(m, w);
    t := OneStep(one, w);
    RunConcat(m, [Work(w, Acked)], [Work(w, Acked)]);
  }

  /** A queued claim is stranded when the first update of its delivery is carried out, but the second
      read fails. */
  lemma StrandedReached(s: State, id: ClaimId) returns (actions: seq<Action>)
    requires Reachable(s) && s.updaters == [] && Queued(s, id)
    ensures Stranded(Run(s, actions), id) && Run(s, actions).updaters == []
  {
    var begin, w := BeginDelivery(s, id);
    var m := Run(s, begin);
    var swapped := UpToReread(m, w, id);
    actions := begin + (swapped + [Work(w, Lost)]);
    RunConcat(s, begin, swapped + [Work(w, Lost)]);
    RunConcat(m, swapped, [Work(w, Lost)]);
    RunOne(Run(m, swapped), Work(w, Lost));
    ReachesOn(s, begin);
    ReachesOn(m, swapped);
    RereadLost(Run(m, swapped), w, id);
  }

  lemma RereadLost(t: State, w: nat, id: ClaimId)
    requires Reachable(t) && t.updaters == [] && Stands(t, w, Reread(id, 0), id, Processing)
    ensures Stranded(Step(t, Work(w, Lost)), id) && Step(t, Work(w, Lost)).updaters == []
  {
    var u := Step(t, Work(w, Lost));
    Frames.WorkFrames(t, w, Lost);
    assert Ownership.Drives(t.workers[w], id) && NextWorkAt(t, t.workers[w], Lost) == Count(id);
    if !Stranded(t, id) {
      StrandedExactlyBy(t, Work(w, Lost), u, id);
    }
  }

  /** A queued claim is abandoned when its worker is stopped between RPOP and GET: the row is untouched,
      the payload stored, nobody is driving the claim, and its token is lost. */
  lemma AbandonedReached(s: State, id: ClaimId) returns (actions: seq<Action>)
    requires Queued(s, id)
    ensures var t := Run(s, actions);
            && Deliverable(t, id) && Spent(t, id) && t.updaters == s.updaters && t.log.redelivered == s.log.redelivered
  {
    var fetch, w := FetchToken(s, id);
    var m := Run(s, fetch);
    RunTwo(m, Stop(w), Work(w, Acked));
    StoppedDrops(m, w, id);
    actions := fetch + [Stop(w), Work(w, Acked)];
    RunConcat(s, fetch, [Stop(w), Work(w, Acked)]);
  }

  lemma StoppedDrops(m: State, w: nat, id: ClaimId)
    requires w < |m.workers| && m.workers[w].at == Load(id)
    ensures var t := Step(Step(m, Stop(w)), Work(w, Acked));
            && Spent(t, id) && t.db.rows == m.db.rows && t.db.payloads == m.db.payloads
            && t.updaters == m.updaters && t.log.redelivered == m.log.redelivered
  {
    var n := Step(m, Stop(w));
    assert Drops(n, n.workers[w], Acked) == Some(id);
  }

  /** One delivery whose first read fails: the claim goes back to the queue, or is dead-lettered. */
  lemma FailFirstRead(s: State, id: ClaimId) returns (actions: seq<Action>)
    requires Queued(s, id)
    ensures Calm(s, Run(s, actions)) && PutBackOrBuried(Run(s, actions), id, RetryCount(s.db.retry, id) + 1)
  {
    var begin, w := BeginDelivery(s, id);
    var m := Run(s, begin);
    RunOne(m, Work(w, Lost));
    FirstReadLost(m, w, id);
    var rest := CountAndPutAway(Run(m, [Work(w, Lost)]), w, id);
    actions := begin + ([Work(w, Lost)] + rest);
    RunConcat(s, begin, [Work(w, Lost)] + rest);
    RunConcat(m, [Work(w, Lost)], rest);
  }

  predicate PutBackOrBuried(t: State, id: ClaimId, retries: nat) {
    Deliverable(t, id) && RetryCount(t.db.retry, id) == retries
    && if retries < MAX_ATTEMPTS then id in t.db.list else id in t.db.dlq
  }

  lemma CountAndPutAway(s: State, w: nat, id: ClaimId) returns (actions: seq<Action>)
    requires Deliverable(s, id) && w < |s.workers| && s.workers[w].at == Count(id)
    ensures Calm(s, Run(s, actions)) && PutBackOrBuried(Run(s, actions), id, RetryCount(s.db.retry, id) + 1)
  {
    var go := Work(w, Acked);
    var check := OneStep(s, w);
    var last := OneStep(check, w);
    var done := PutAway(last, w, id);
    actions := [go] + ([go] + [go]);
    RunConcat(s, [go], [go] + [go]);
    RunConcat(check, [go], [go]);
  }

  lemma FirstReadLost(m: State, w: nat, id: ClaimId)
    requires w < |m.workers| && m.workers[w].at == Inspect(id)
    ensures var t := Step(m, Work(w, Lost));
            && Calm(m, t) && w < |t.workers| && t.workers[w].at == Count(id)
            && t.db == m.db
  {
  }

  /** The last command of a failed delivery puts the token back, or buries it. */
  lemma PutAway(s: State, w: nat, id: ClaimId) returns (t: State)
    requires w < |s.workers| && (s.workers[w].at == Requeue(id) || s.workers[w].at == Bury(id))
    ensures t == Run(s, [Work(w, Acked)]) && Calm(s, t) && t.db.rows == s.db.rows && t.db.payloads == s.db.payloads
    ensures t.db.retry == s.db.retry
    ensures if s.workers[w].at.Requeue? then id in t.db.list else id in t.db.dlq
  {
    RunOne(s, Work(w, Acked));
    t := Step(s, Work(w, Acked));
    Frames.WorkFrames(s, w, Acked);
    assert LPush(s.db.list, id)[0] == id && LPush(s.db.dlq, id)[0] == id;
  }

  /** Nothing but failing reads, and a queued claim is dead-lettered untouched. */
  lemma {:induction false} BuriedReached(s: State, id: ClaimId) returns (actions: seq<Action>)
    requires Reachable(s) && s.log.redelivered[id] == 0 && Queued(s, id)
    ensures var t := Run(s, actions);
            && Calm(s, t) && Deliverable(t, id) && id in t.db.dlq && Spent(t, id)
    decreases MAX_ATTEMPTS - RetryCount(s.db.retry, id)
  {
    actions := FailFirstRead(s, id);
    var t := Run(s, actions);
    if id !in t.db.dlq {
      ReachesOn(s, actions);
      var rest := BuriedReached(t, id);
      RunConcat(s, actions, rest);
      actions := actions + rest;
    }
  }
}
