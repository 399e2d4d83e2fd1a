/** Why a queue that receives nothing new runs dry: every finished delivery uses up fuel. */
module Drain {
  import opened Basics
  import opened IdempotencyKeys
  import opened ClaimSystem
  import opened Tokens
  import opened Retries

  type Counters = map<ClaimId, nat>

  /** The attempts a token of this claim has left. */
  function Fuel(retry: Counters, id: ClaimId): nat {
    if RetryCount(retry, id) < MAX_ATTEMPTS then MAX_ATTEMPTS - RetryCount(retry, id) else 0
  }

  function InHand(retry: Counters, at: WorkAt): nat {
    if Token(at).Some? then Fuel(retry, Token(at).value) else 0
  }

  function ListFuel(list: seq<ClaimId>, retry: Counters): seq<nat> {
    seq(|list|, n requires 0 <= n < |list| => Fuel(retry, list[n]))
  }

  function HandFuel(workers: seq<Worker>, retry: Counters): seq<nat> {
    seq(|workers|, n requires 0 <= n < |workers| => InHand(retry, workers[n].at))
  }

  /** The attempts left to all tokens that are queued or in a worker's hands. */
  function Budget(s: State): nat {
    Sum(ListFuel(s.db.list, s.db.retry)) + Sum(HandFuel(s.workers, s.db.retry))
  }

  /** The counter a worker changes belongs to a claim that no other token names. */
  lemma CounterIsPrivate(s: State, w: nat, o: Outcome)
    requires w < |s.workers| && forall id :: TokenCount(s, id) <= 1 && Tried(s, id)
    ensures var retry := RetryAfterWork(s.db.retry, s.workers[w], o);
            && ListFuel(s.db.list, retry) == ListFuel(s.db.list, s.db.retry)
            && forall n | 0 <= n < |s.workers| && n != w ::
                 InHand(retry, s.workers[n].at) == InHand(s.db.retry, s.workers[n].at)
  {
    var at := s.workers[w].at;
    if at.Count? {
      HolderAlone(s, at.id, w);
    }
    if at.Forget? {
      assert TokenCount(s, at.id) <= 1 && Tried(s, at.id);
      WaitsAlone(s, at.id);
    }
  }

  /** What one command does to the fuel of the list and of the worker's own hand. */
  lemma CommandBurns(s: State, x: Worker, o: Outcome)
    requires PayloadsNameTheirClaim(s)
    requires Token(x.at).Some? ==>
               Counted(x.at, Deliveries(s, Token(x.at).value), RetryCount(s.db.retry, Token(x.at).value))
    ensures var retry := RetryAfterWork(s.db.retry, x, o);
            var before := InHand(s.db.retry, x.at) + (if Takes(s, x, o) then Fuel(s.db.retry, Last(s.db.list)) else 0);
            var after := InHand(retry, NextWorkAt(s, x, o)) + (if PutsBack(x, o) then Fuel(retry, x.at.id) else 0);
            && after <= before
            && (Spent(x.at) == 1 && Spent(NextWorkAt(s, x, o)) == 0 ==> after < before)
  {
  }

  lemma ListBurns(s: State, x: Worker, o: Outcome, retry: Counters)
    ensures Sum(ListFuel(ListAfterWork(s, x, o), retry)) + (if Takes(s, x, o) then Fuel(retry, Last(s.db.list)) else 0)
            == Sum(ListFuel(s.db.list, retry)) + (if PutsBack(x, o) then Fuel(retry, x.at.id) else 0)
  {
    var fuel := ListFuel(s.db.list, retry);
    if PutsBack(x, o) {
      assert ListFuel(LPush(s.db.list, x.at.id), retry) == [Fuel(retry, x.at.id)] + fuel;
      SumPrepend(Fuel(retry, x.at.id), fuel);
    } else if Takes(s, x, o) {
      assert ListFuel(s.db.list[..|s.db.list| - 1], retry) == fuel[..|fuel| - 1];
    }
  }

  lemma WorkBurns(s: State, w: nat, o: Outcome)
    requires w < |s.workers| && PayloadsNameTheirClaim(s) && forall id :: TokenCount(s, id) <= 1 && Tried(s, id)
    ensures Budget(WorkStep(s, w, o)) <= Budget(s)
    ensures Spent(s.workers[w].at) == 1 && Spent(WorkStep(s, w, o).workers[w].at) == 0
            ==> Budget(WorkStep(s, w, o)) < Budget(s)
  {
    var x, t := s.workers[w], WorkStep(s, w, o);
    CounterIsPrivate(s, w, o);
    if Token(x.at).Some? {
      assert Tried(s, Token(x.at).value);
    }
    CommandBurns(s, x, o);
    ListBurns(s, x, o, t.db.retry);
    TakenFuelIsKept(s, x, o);
    HandMoves(s, t, w);
  }

  lemma HandMoves(s: State, t: State, w: nat)
    requires w < |s.workers| == |t.workers|
    requires forall n | 0 <= n < |s.workers| && n != w ::
               t.workers[n] == s.workers[n]
               && InHand(t.db.retry, s.workers[n].at) == InHand(s.db.retry, s.workers[n].at)
    ensures Sum(HandFuel(t.workers, t.db.retry)) + InHand(s.db.retry, s.workers[w].at)
            == Sum(HandFuel(s.workers, s.db.retry)) + InHand(t.db.retry, t.workers[w].at)
  {
    var before := HandFuel(s.workers, s.db.retry);
    assert HandFuel(t.workers, t.db.retry) == before[w := InHand(t.db.retry, t.workers[w].at)];
    SumUpdate(before, w, InHand(t.db.retry, t.workers[w].at));
  }

  lemma TakenFuelIsKept(s: State, x: Worker, o: Outcome)
    ensures Takes(s, x, o) ==> RetryAfterWork(s.db.retry, x, o) == s.db.retry
  {
  }

  /** In every reachable state, no worker's step adds fuel, and one that ends a delivery, well
      or badly, burns some. */
  lemma DeliveriesBurnFuel(s: State, w: nat, o: Outcome)
    requires Reachable(s) && s.log.redelivered == multiset{} && w < |s.workers|
    ensures var t := WorkStep(s, w, o);
            && Budget(t) <= Budget(s)
            && (Spent(s.workers[w].at) == 1 && Spent(t.workers[w].at) == 0 ==> Budget(t) < Budget(s))
  {
    var limit, actions :| s == Run(Init(limit), actions);
    AlwaysPayloads(limit, actions);
    forall id ensures TokenCount(s, id) <= 1 && Tried(s, id) {
      OneToken(s, id);
      AlwaysTried(limit, actions, id);
    }
    WorkBurns(s, w, o);
  }
}
