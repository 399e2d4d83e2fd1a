/** When a worker comes to an end, and that otherwise it goes on: past an empty list, a missing payload, a
    finished claim, and a delivery that fails. */
module Survival {
  import opened Basics
  import opened IdempotencyKeys
  import opened Lifecycle
  import opened ClaimSystem
  import opened Runs

  // ---------------------------------------------------------------- why a worker has come to an end

  /** The worker is at its end, or has only its clean-up left. */
  predicate Over(at: WorkAt) {
    at.Halted? || (at.Clear? && !at.alive)
  }

  /** A worker whose end was recorded is over; one that is over was ended, or told to stop. */
  predicate EndsKnown(s: State, w: nat)
    requires w < |s.workers|
  {
    var x := s.workers[w];
    && (w in s.faults.ended ==> Over(x.at))
    && (Over(x.at) ==> w in s.faults.ended || (x.at.Halted? && !x.running))
  }

  predicate AllEndsKnown(s: State) {
    && (forall w | 0 <= w < |s.workers| :: EndsKnown(s, w))
    && forall w | w in s.faults.ended :: w < |s.workers|
  }

  lemma CommandEnds(s: State, x: Worker, o: Outcome)
    ensures Over(x.at) || Escapes(x, o) ==> Over(NextWorkAt(s, x, o))
    ensures Over(NextWorkAt(s, x, o)) ==>
              Over(x.at) || Escapes(x, o) || (!x.running && NextWorkAt(s, x, o).Halted?)
  {
  }

  lemma WorkEndsKnown(s: State, w: nat, o: Outcome)
    requires AllEndsKnown(s) && w < |s.workers|
    ensures AllEndsKnown(WorkStep(s, w, o))
  {
    var x, t := s.workers[w], WorkStep(s, w, o);
    CommandEnds(s, x, o);
    forall n | 0 <= n < |t.workers| ensures EndsKnown(t, n) {
      assert EndsKnown(s, n);
    }
  }

  /** What the steps of everything else are to the workers: a start, a request to stop, or a death. */
  lemma WorkersOtherwise(s: State, a: Action)
    requires Enabled(s, a) && !a.Work?
    ensures var t := Step(s, a);
            && t.workers == (match a
                             case Boot => s.workers + [Worker(true, 0, Pop)]
                             case Stop(w) => s.workers[w := s.workers[w].(running := false)]
                             case KillWorker(w) => s.workers[w := s.workers[w].(at := Halted)]
                             case _ => s.workers)
            && t.faults.ended == if a.KillWorker? then s.faults.ended + {a.worker} else s.faults.ended
  {
  }

  lemma OtherEndsKnown(s: State, a: Action)
    requires AllEndsKnown(s) && Enabled(s, a) && !a.Work?
    ensures AllEndsKnown(Step(s, a))
  {
    var t := Step(s, a);
    WorkersOtherwise(s, a);
    forall n | 0 <= n < |t.workers| ensures EndsKnown(t, n) {
      assert n < |s.workers| ==> EndsKnown(s, n);
    }
  }

  lemma {:induction false} AlwaysEndsKnown(limit: nat, actions: seq<Action>)
    ensures AllEndsKnown(Run(Init(limit), actions))
  {
    if actions != [] {
      var front, a := actions[..|actions| - 1], actions[|actions| - 1];
      AlwaysEndsKnown(limit, front);
      var s := Run(Init(limit), front);
      if Enabled(s, a) {
        if a.Work? {
          WorkEndsKnown(s, a.worker, a.outcome);
        } else {
          OtherEndsKnown(s, a);
        }
      }
    }
  }

  /** A worker that is running has come to an end if and only if an exception has escaped its loop, or it
      has died; until its clean-up, that is. */
  lemma HaltedForAReason(s: State, w: nat)
    requires Reachable(s) && w < |s.workers| && s.workers[w].running
    ensures s.workers[w].at.Halted? ==> w in s.faults.ended
    ensures w in s.faults.ended ==> s.workers[w].at.Halted? || s.workers[w].at.Clear?
  {
    var limit, actions :| s == Run(Init(limit), actions);
    AlwaysEndsKnown(limit, actions);
    assert EndsKnown(s, w);
  }

  /** Exactly which steps bring a worker to its end: its death; a failing command outside the try block
      of a delivery, the retry bookkeeping and the clean-up included; and, once it has been told to stop, the next
      time it looks. Whatever fails in the database does not. */
  lemma EndsExactlyBy(s: State, a: Action, w: nat)
    requires Enabled(s, a) && w < |s.workers| && !Over(s.workers[w].at)
    ensures w < |Step(s, a).workers|
    ensures var x := s.workers[w];
            Over(Step(s, a).workers[w].at) <==>
              || a == KillWorker(w)
              || (a in {Work(w, Lost), Work(w, Unacked)}
                  && (x.at.Pop? || x.at.Load? || x.at.Count? || x.at.Check? || x.at.Requeue? || x.at.Bury?
                      || x.at.Forget? || x.at.Clear?))
              || (a == Work(w, Acked) && !x.running && ((x.at.Pop? && s.db.list == []) || x.at.Load? || x.at.Clear?))
              || (a.Work? && a.worker == w && !x.running && x.at.Nap? && x.at.until <= s.db.now)
  {
    if a.Work? {
      WorkerMoves(s, a.worker, a.outcome);
      if a.worker == w {
        CommandEndsExactly(s, s.workers[w], a.outcome);
      }
    } else {
      WorkersOtherwise(s, a);
    }
  }

  lemma CommandEndsExactly(s: State, x: Worker, o: Outcome)
    requires !Over(x.at)
    ensures Over(NextWorkAt(s, x, o)) <==>
              || (o != Acked
                  && (x.at.Pop? || x.at.Load? || x.at.Count? || x.at.Check? || x.at.Requeue? || x.at.Bury?
                      || x.at.Forget? || x.at.Clear?))
              || (o == Acked && !x.running && ((x.at.Pop? && s.db.list == []) || x.at.Load? || x.at.Clear?))
              || (!x.running && x.at.Nap? && x.at.until <= s.db.now)
  {
  }

  lemma WorkerMoves(s: State, w: nat, o: Outcome)
    requires w < |s.workers|
    ensures var x, t := s.workers[w], WorkStep(s, w, o);
            && |t.workers| == |s.workers| && t.workers[w].at == NextWorkAt(s, x, o)
            && t.workers[w].running == x.running
            && forall n | 0 <= n < |s.workers| && n != w :: t.workers[n] == s.workers[n]
  {
  }

  /** A worker that is told to stop before it has its payload does not take up the delivery. */
  lemma StoppedWorkerDeliversNothing(s: State, w: nat, o: Outcome)
    requires w < |s.workers| && s.workers[w].at.Load?
    ensures var m := Step(s, Stop(w));
            && m.db == s.db && m.workers[w] == Worker(false, s.workers[w].run, s.workers[w].at)
            && Step(m, Work(w, o)).workers[w].at == Halted && Step(m, Work(w, o)).log.runs == s.log.runs
  {
    var m := Step(s, Stop(w));
    WorkersOtherwise(s, Stop(w));
    OwnStep(m, w, o);
    StoppedLoadLeads(m, Step(m, Work(w, o)), w, o);
  }

  lemma StoppedLoadLeads(s: State, t: State, w: nat, o: Outcome)
    requires Stepped(s, t, w, o) && s.workers[w].at.Load? && !s.workers[w].running
    ensures t.workers[w].at == Halted && t.log.runs == s.log.runs
  {
  }

  // ---------------------------------------------------------------- the worker goes on

  /** What a worker's step leads to, in the parts of the state that its next commands look at. */
  predicate Stepped(s: State, t: State, w: nat, o: Outcome) {
    && w < |s.workers| == |t.workers| && t.db == StoreAfterWork(s, s.workers[w], o)
    && t.workers[w] == NextWorker(s, s.workers[w], o)
    && t.log == LogAfterWork(s, s.workers[w], o)
  }

  lemma OwnStep(s: State, w: nat, o: Outcome)
    requires w < |s.workers|
    ensures Stepped(s, Step(s, Work(w, o)), w, o)
  {
  }

  /** Time passes, and the workers stand where they stood. */
  predicate Later(s: State, m: State, rest: nat) {
    m.workers == s.workers && m.db.now == s.db.now + rest && m.db.rows == s.db.rows
  }

  /** Some time, and then a step of the worker. */
  lemma WaitAndStep(s: State, w: nat, rest: nat, o: Outcome) returns (m: State, t: State)
    requires w < |s.workers|
    ensures t == Run(s, [Tick(rest), Work(w, o)]) && Later(s, m, rest) && Stepped(m, t, w, o)
  {
    RunTwo(s, Tick(rest), Work(w, o));
    m := Step(s, Tick(rest));
    t := Step(m, Work(w, o));
    OwnStep(m, w, o);
  }

  lemma NapLeads(s: State, m: State, t: State, w: nat, rest: nat, o: Outcome)
    requires Later(s, m, rest) && Stepped(m, t, w, o) && s.workers[w].running && s.workers[w].at == Nap(s.db.now + 500)
    ensures t.workers[w].running && t.workers[w].at == if rest < 500 then Nap(s.db.now + 500) else Pop
  {
  }

  lemma PauseLeads(s: State, m: State, t: State, w: nat, rest: nat, o: Outcome)
    requires Later(s, m, rest) && Stepped(m, t, w, o) && s.workers[w].at.Pause?
    ensures var at := s.workers[w].at;
            && t.db.rows == s.db.rows
            && t.workers[w].at == if s.db.now + rest < at.until then at else Read(at.id, at.stage)
  {
  }

  /** An idle worker: it waits for half a second, to the millisecond, and is back at the head of its loop. */
  lemma NapEnds(s: State, w: nat, rest: nat, o: Outcome)
    requires w < |s.workers| && s.workers[w].running && s.workers[w].at == Nap(s.db.now + 500)
    ensures var t := Run(s, [Tick(rest), Work(w, o)]);
            w < |t.workers| && t.workers[w].running
            && t.workers[w].at == if rest < 500 then Nap(s.db.now + 500) else Pop
  {
    var m, t := WaitAndStep(s, w, rest, o);
    NapLeads(s, m, t, w, rest, o);
  }

  /** A running worker that finds the list empty is back half a second later, and has changed nothing. */
  lemma EmptyListIsWaitedOut(s: State, w: nat, o: Outcome)
    requires w < |s.workers| && s.workers[w].running && s.workers[w].at == Pop && s.db.list == []
    ensures Step(s, Work(w, Acked)).db == s.db
    ensures var t := Run(s, [Work(w, Acked)] + [Tick(500), Work(w, o)]);
            w < |t.workers| && t.workers[w].running && t.workers[w].at == Pop
  {
    var m := Step(s, Work(w, Acked));
    OwnStep(s, w, Acked);
    NapEnds(m, w, 500, o);
    RunOne(s, Work(w, Acked));
    RunConcat(s, [Work(w, Acked)], [Tick(500), Work(w, o)]);
  }

  /** So is one whose claim has lost its payload; the token is gone, and its claim as it was. */
  lemma MissingPayloadIsWaitedOut(s: State, w: nat, id: ClaimId, o: Outcome)
    requires w < |s.workers| && s.workers[w].running && s.workers[w].at == Load(id) && id !in s.db.payloads
    ensures Step(s, Work(w, Acked)).db == s.db
    ensures var t := Run(s, [Work(w, Acked)] + [Tick(500), Work(w, o)]);
            w < |t.workers| && t.workers[w].running && t.workers[w].at == Pop
  {
    var m := Step(s, Work(w, Acked));
    OwnStep(s, w, Acked);
    NapEnds(m, w, 500, o);
    RunOne(s, Work(w, Acked));
    RunConcat(s, [Work(w, Acked)], [Tick(500), Work(w, o)]);
  }

  /** The worker's next two steps, seen through what they look at. */
  lemma TwoSteps(s: State, w: nat, o: Outcome, p: Outcome) returns (m: State, t: State)
    requires w < |s.workers|
    ensures m == Step(s, Work(w, o)) && t == Run(s, [Work(w, o), Work(w, p)])
    ensures Stepped(s, m, w, o) && Stepped(m, t, w, p)
  {
    RunTwo(s, Work(w, o), Work(w, p));
    m := Step(s, Work(w, o));
    OwnStep(s, w, o);
    t := Step(m, Work(w, p));
    OwnStep(m, w, p);
  }

  lemma SkipLeads(s: State, m: State, t: State, w: nat, id: ClaimId)
    requires Stepped(s, m, w, Acked) && Stepped(m, t, w, Acked) && s.workers[w].running
    requires s.workers[w].at == Inspect(id) && id in s.db.rows && s.db.rows[id].status in {Approved, Rejected}
    ensures t.workers[w].at == Pop && t.db.rows == s.db.rows && t.db.list == s.db.list && t.db.dlq == s.db.dlq
    ensures t.log.retired == s.log.retired + multiset{id} && id !in t.db.markers
  {
  }

  /** A claim that already has its verdict is skipped: its token is retired, its row stays as it is, and the
      worker takes the next one. */
  lemma FinishedClaimIsSkipped(s: State, w: nat, id: ClaimId)
    requires w < |s.workers| && s.workers[w].running && s.workers[w].at == Inspect(id)
    requires id in s.db.rows && s.db.rows[id].status in {Approved, Rejected}
    ensures var t := Run(s, [Work(w, Acked), Work(w, Acked)]);
            && w < |t.workers| && t.workers[w].at == Pop
            && t.db.rows == s.db.rows && t.db.list == s.db.list && t.db.dlq == s.db.dlq
            && t.log.retired == s.log.retired + multiset{id} && id !in t.db.markers
  {
    var m, t := TwoSteps(s, w, Acked, Acked);
    SkipLeads(s, m, t, w, id);
  }

  // ---------------------------------------------------------------- when a delivery fails

  /** The claim is in a status this stage can start from: the table lets PROCESSING be rejected early. */
  predicate Ready(rows: map<ClaimId, Row>, id: ClaimId, stage: Stage) {
    id in rows && match stage
                  case 0 => rows[id].status == Pending
                  case 1 => rows[id].status == Processing
                  case 2 => rows[id].status == FraudChecking
                            || (rows[id].status == Processing && |OddPlaces(id.text)| % 2 == 1)
  }

  lemma ReadGoesOn(s: State, x: Worker, o: Outcome)
    requires x.at.Read?
    ensures var id, stage := x.at.id, x.at.stage;
            NextWorkAt(s, x, o) == if o == Acked && Ready(s.db.rows, id, stage)
                                   then Swap(id, stage, s.db.rows[id].status, s.db.rows[id].version) else Count(id)
  {
    VerdictIsParity(x.at.id);
  }

  /** Exactly when a delivery fails and is counted, command by command: the command is reported failed; the
      claim is not there; it is not in a status this stage can start from, as in a second delivery of
      a claim that is half-way; its version has moved on. Otherwise the next command follows. */
  lemma DeliveryFailsExactlyBy(s: State, w: nat, id: ClaimId, stage: Stage, o: Outcome)
    requires w < |s.workers|
    ensures var at, t := s.workers[w].at, Step(s, Work(w, o));
            && w < |t.workers|
            && (at == Inspect(id) ==>
                  (t.workers[w].at == Count(id) <==> o != Acked || id !in s.db.rows))
            && (at == Read(id, stage) ==>
                  if o == Acked && Ready(s.db.rows, id, stage)
                  then t.workers[w].at == Swap(id, stage, s.db.rows[id].status, s.db.rows[id].version)
                  else t.workers[w].at == Count(id))
            && (at.Swap? && at.id == id && at.stage == stage ==>
                  if o == Acked && id in s.db.rows && s.db.rows[id].version == at.version
                  then t.workers[w].at == Reread(id, stage) else t.workers[w].at == Count(id))
            && (at == Reread(id, stage) ==> (t.workers[w].at == Count(id) <==> o != Acked))
  {
    OwnStep(s, w, o);
    if s.workers[w].at == Read(id, stage) {
      ReadGoesOn(s, s.workers[w], o);
    }
  }

  // ---------------------------------------------------------------- after a failure

  lemma CountLeads(s: State, m: State, t: State, w: nat, id: ClaimId)
    requires Stepped(s, m, w, Acked) && Stepped(m, t, w, Acked) && s.workers[w].at == Count(id)
    ensures t.workers[w].running == s.workers[w].running && t.db.rows == s.db.rows
    ensures t.db.list == s.db.list && t.db.dlq == s.db.dlq
    ensures id in t.db.retry && t.db.retry[id] == RetryCount(s.db.retry, id) + 1
    ensures t.workers[w].at == if RetryCount(s.db.retry, id) + 1 < 3 then Requeue(id) else Bury(id)
  {
  }

  lemma RequeueLeads(s: State, m: State, t: State, w: nat, id: ClaimId)
    requires Stepped(s, m, w, Acked) && Stepped(m, t, w, Acked) && s.workers[w].at == Requeue(id)
    requires s.workers[w].running
    ensures t.workers[w].at == Pop && t.db.rows == s.db.rows && t.db.list == [id] + s.db.list
    ensures t.db.dlq == s.db.dlq && t.db.retry == s.db.retry
  {
  }

  lemma BuryLeads(s: State, m: State, t: State, u: State, w: nat, id: ClaimId)
    requires Stepped(s, m, w, Acked) && Stepped(m, t, w, Acked) && Stepped(t, u, w, Acked)
    requires s.workers[w].at == Bury(id) && s.workers[w].running
    ensures u.workers[w].at == Pop && u.db.rows == s.db.rows && u.db.list == s.db.list
    ensures u.db.dlq == [id] + s.db.dlq && id !in u.db.retry
  {
  }

  /** After a first or second failure the claim is put back at the end of the queue, its row as it is,
      and the worker takes the next claim. */
  lemma EarlyFailureIsRequeued(s: State, w: nat, id: ClaimId)
    requires w < |s.workers| && s.workers[w].running && s.workers[w].at == Count(id) && RetryCount(s.db.retry, id) < 2
    ensures var t := Run(s, [Work(w, Acked), Work(w, Acked)] + [Work(w, Acked), Work(w, Acked)]);
            && w < |t.workers| && t.workers[w].at == Pop
            && t.db.rows == s.db.rows && t.db.list == [id] + s.db.list && t.db.dlq == s.db.dlq
            && id in t.db.retry && t.db.retry[id] == RetryCount(s.db.retry, id) + 1
  {
    var m, t := TwoSteps(s, w, Acked, Acked);
    CountLeads(s, m, t, w, id);
    var n, u := TwoSteps(t, w, Acked, Acked);
    RequeueLeads(t, n, u, w, id);
    RunConcat(s, [Work(w, Acked), Work(w, Acked)], [Work(w, Acked), Work(w, Acked)]);
  }

  /** After a third it is dead-lettered and its counter forgotten; the worker goes on all the same. */
  lemma ThirdFailureIsBuried(s: State, w: nat, id: ClaimId)
    requires w < |s.workers| && s.workers[w].running && s.workers[w].at == Count(id) && RetryCount(s.db.retry, id) >= 2
    ensures var go := Work(w, Acked);
            var t := Run(s, [go, go] + ([go, go] + [go]));
            && w < |t.workers| && t.workers[w].at == Pop
            && t.db.rows == s.db.rows && t.db.list == s.db.list && t.db.dlq == [id] + s.db.dlq && id !in t.db.retry
  {
    var go := Work(w, Acked);
    var m, t := TwoSteps(s, w, Acked, Acked);
    CountLeads(s, m, t, w, id);
    var n, u := TwoSteps(t, w, Acked, Acked);
    OwnStep(u, w, Acked);
    BuryLeads(t, n, u, Step(u, go), w, id);
    RunOne(u, go);
    RunConcat(t, [go, go], [go]);
    RunConcat(s, [go, go], [go, go] + [go]);
  }

  // ---------------------------------------------------------------- the pauses of a delivery

  /** A stage's last command is followed by a pause of a second, to the millisecond. */
  lemma PauseTakesASecond(s: State, w: nat, id: ClaimId, stage: Stage, rest: nat, o: Outcome)
    requires w < |s.workers| && s.workers[w].at == Reread(id, stage) && stage < 2
    ensures var t := Run(s, [Work(w, Acked)] + [Tick(rest), Work(w, o)]);
            w < |t.workers| && t.db.rows == s.db.rows
            && t.workers[w].at == if rest < 1000 then Pause(id, stage + 1, s.db.now + 1000) else Read(id, stage + 1)
  {
    var m := Step(s, Work(w, Acked));
    OwnStep(s, w, Acked);
    RereadLeads(s, m, w, id, stage);
    PauseEnds(m, w, rest, o);
    RunOne(s, Work(w, Acked));
    RunConcat(s, [Work(w, Acked)], [Tick(rest), Work(w, o)]);
  }

  lemma RereadLeads(s: State, m: State, w: nat, id: ClaimId, stage: Stage)
    requires Stepped(s, m, w, Acked) && s.workers[w].at == Reread(id, stage) && stage < 2
    ensures m.db == s.db && m.workers[w].at == Pause(id, stage + 1, s.db.now + 1000)
  {
  }

  lemma PauseEnds(s: State, w: nat, rest: nat, o: Outcome)
    requires w < |s.workers| && s.workers[w].at.Pause?
    ensures var at, t := s.workers[w].at, Run(s, [Tick(rest), Work(w, o)]);
            w < |t.workers| && t.db.rows == s.db.rows
            && t.workers[w].at == if s.db.now + rest < at.until then at else Read(at.id, at.stage)
  {
    var m, t := WaitAndStep(s, w, rest, o);
    PauseLeads(s, m, t, w, rest, o);
  }
}
