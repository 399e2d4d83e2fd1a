/** How far the queue can overshoot its limit when the check and the push are separate steps. */
module Backpressure {
  import opened Basics
  import opened IdempotencyKeys
  import opened ClaimSystem
  import Frames

  function Hand(x: Worker): nat {
    if Token(x.at).Some? then 1 else 0
  }

  function Hands(workers: seq<Worker>): seq<nat> {
    seq(|workers|, n requires 0 <= n < |workers| => Hand(workers[n]))
  }

  /** Tokens in the workers' hands. */
  function InFlight(s: State): nat {
    Sum(Hands(s.workers))
  }

  function Demand(s: State): nat {
    |s.db.list| + PastChecks(s.creators) + InFlight(s)
  }

  /** `peak` is the largest number of callers there ever were between the check and the push. */
  predicate Bounded(s: State) {
    && PastChecks(s.creators) <= s.log.peak
    && Demand(s) <= s.limit - 1 + s.log.peak + |s.workers| + |s.log.redelivered|
  }

  lemma CreatorMoves(creators: seq<Creator>, i: nat, c: Creator)
    requires i < |creators|
    ensures PastChecks(creators[i := c]) + PastCheck(creators[i].at) == PastChecks(creators) + PastCheck(c.at)
  {
    assert Checks(creators[i := c]) == Checks(creators)[i := PastCheck(c.at)];
    SumUpdate(Checks(creators), i, PastCheck(c.at));
  }

  lemma CreateBounded(s: State, i: nat, o: Outcome, uuid: ClaimId)
    requires Bounded(s) && s.limit >= 1 && i < |s.creators|
    ensures Bounded(CreateStep(s, i, o, uuid))
  {
    Frames.CreateFrames(s, i, o, uuid);
    var c, d := s.creators[i], NextCreator(s, s.creators[i], o, uuid);
    CreatorMoves(s.creators, i, d);
    SumBounded(Hands(s.workers));
    PassesOnlyWithRoom(s, c, o);
  }

  /** A caller joins those past the check only when the list is below the limit, and its push
      takes it out of their number. */
  lemma PassesOnlyWithRoom(s: State, c: Creator, o: Outcome)
    ensures PastCheck(NextCreateAt(s, c, o)) + (if Enqueues(c, o) then 1 else 0) > PastCheck(c.at)
            ==> c.at.Measure? && |s.db.list| < s.limit
    ensures PastCheck(NextCreateAt(s, c, o)) + (if Enqueues(c, o) then 1 else 0) <= PastCheck(c.at) + 1
    ensures c.at.Measure? ==> !Enqueues(c, o)
  {
  }

  /** A worker's step never raises the demand: what it takes it holds, what it puts back it held. */
  lemma WorkBounded(s: State, w: nat, o: Outcome)
    requires Bounded(s) && w < |s.workers|
    ensures Bounded(WorkStep(s, w, o))
  {
    Frames.WorkFrames(s, w, o);
    HandMoves(s.workers, w, NextWorker(s, s.workers[w], o));
    TokenMovesOnce(s, s.workers[w], o);
  }

  lemma HandMoves(workers: seq<Worker>, w: nat, x: Worker)
    requires w < |workers|
    ensures Sum(Hands(workers[w := x])) + Hand(workers[w]) == Sum(Hands(workers)) + Hand(x)
  {
    assert Hands(workers[w := x]) == Hands(workers)[w := Hand(x)];
    SumUpdate(Hands(workers), w, Hand(x));
  }

  lemma TokenMovesOnce(s: State, x: Worker, o: Outcome)
    ensures |ListAfterWork(s, x, o)| + Hand(NextWorker(s, x, o)) <= |s.db.list| + Hand(x)
  {
  }

  lemma CallBounded(s: State, identity: Text, header: Option<Text>, fingerprint: Text)
    requires Bounded(s)
    ensures Bounded(CallStep(s, identity, header, fingerprint))
  {
    var t := CallStep(s, identity, header, fingerprint);
    assert Checks(t.creators) == Checks(s.creators) + [0];
    SumAppend(Checks(s.creators), 0);
  }

  lemma OtherBounded(s: State, a: Action)
    requires Bounded(s) && s.limit >= 1 && Enabled(s, a)
    requires !a.Create? && !a.Call? && !a.KillCreator? && !a.Work? && !a.Update?
    ensures Bounded(Step(s, a)) && Step(s, a).limit == s.limit
  {
    var t := Step(s, a);
    Frames.OutsideFrames(s, a);
    Frames.OtherLedger(s, a);
    HandsOf(s, a);
  }

  /** A new worker's hands are empty, and so are a dead one's. */
  lemma HandsOf(s: State, a: Action)
    requires Enabled(s, a) && !a.Create? && !a.Work? && !a.Update?
    ensures InFlight(Step(s, a)) <= InFlight(s)
  {
    var before, after := Hands(s.workers), Hands(Step(s, a).workers);
    if a.Boot? {
      assert after == before + [0];
      SumAppend(before, 0);
    } else if a.KillWorker? {
      assert after == before[a.worker := 0];
      SumUpdate(before, a.worker, 0);
    } else {
      assert after == before;
    }
  }

  lemma StepBounded(s: State, a: Action)
    requires Bounded(s) && s.limit >= 1
    ensures Bounded(Step(s, a)) && Step(s, a).limit == s.limit
  {
    if Enabled(s, a) {
      if a.Create? {
        CreateBounded(s, a.creator, a.outcome, a.uuid);
        Frames.CreateFrames(s, a.creator, a.outcome, a.uuid);
      } else if a.Call? {
        CallBounded(s, a.identity, a.header, a.fingerprint);
      } else if a.KillCreator? {
        CreatorMoves(s.creators, a.creator, s.creators[a.creator].(at := Killed));
      } else if a.Work? {
        WorkBounded(s, a.worker, a.outcome);
        Frames.WorkFrames(s, a.worker, a.outcome);
      } else if a.Update? {
        Frames.UpdateFrames(s, a.updater, a.outcome);
      } else {
        OtherBounded(s, a);
      }
    }
  }

  /** In every reachable state, requeues included: waiting, about to be pushed and in hand together
      stay below the limit plus the most callers ever past the check plus one per worker. */
  lemma {:induction false} AlwaysBounded(limit: nat, actions: seq<Action>)
    requires limit >= 1
    ensures Bounded(Run(Init(limit), actions)) && Run(Init(limit), actions).limit == limit
  {
    if actions != [] {
      var front := actions[..|actions| - 1];
      AlwaysBounded(limit, front);
      StepBounded(Run(Init(limit), front), actions[|actions| - 1]);
    }
  }

  /** The bound on the queue alone. */
  lemma QueueBound(s: State, limit: nat, actions: seq<Action>)
    requires s == Run(Init(limit), actions) && limit >= 1 && s.log.redelivered == multiset{}
    ensures |s.db.list| + PastChecks(s.creators) + InFlight(s) <= limit - 1 + s.log.peak + |s.workers|
  {
    AlwaysBounded(limit, actions);
  }
}
