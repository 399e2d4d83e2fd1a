/** The queue's tokens: none is forged, none disappears unaccounted, and they are served in order. */
module Tokens {
  import opened Basics
  import opened IdempotencyKeys
  import opened ClaimSystem
  import Frames
  import opened Registry

  // ---------------------------------------------------------------- conservation

  function Is(token: Option<ClaimId>, id: ClaimId): nat {
    if token == Some(id) then 1 else 0
  }

  function Holdings(workers: seq<Worker>, id: ClaimId): seq<nat> {
    seq(|workers|, n requires 0 <= n < |workers| => Is(Token(workers[n].at), id))
  }

  /** How many workers have this claim in hand. */
  function Held(workers: seq<Worker>, id: ClaimId): nat {
    Sum(Holdings(workers, id))
  }

  lemma HeldUpdate(workers: seq<Worker>, w: nat, x: Worker, id: ClaimId)
    requires w < |workers|
    ensures Held(workers[w := x], id) + Is(Token(workers[w].at), id) == Held(workers, id) + Is(Token(x.at), id)
  {
    SumUpdate(Holdings(workers, id), w, Is(Token(x.at), id));
    assert Holdings(workers[w := x], id) == Holdings(workers, id)[w := Is(Token(x.at), id)];
  }

  /** Where a claim's tokens are: waiting, in hand, buried, retired or lost. */
  function TokenCount(s: State, id: ClaimId): nat {
    multiset(s.db.list)[id] + Held(s.workers, id) + multiset(s.db.dlq)[id] + s.log.retired[id] + s.log.dropped[id]
  }

  predicate Conserved(s: State, id: ClaimId) {
    TokenCount(s, id) == s.log.added[id] + s.log.redelivered[id]
  }

  predicate PayloadsNameTheirClaim(s: State) {
    forall id | id in s.db.payloads :: s.db.payloads[id].claim == id
  }

  lemma ListCounts(list: seq<ClaimId>, id: ClaimId, pushed: ClaimId)
    ensures multiset(LPush(list, pushed))[id] == multiset(list)[id] + Is(Some(pushed), id)
    ensures list != [] ==> multiset(list)[id] == multiset(list[..|list| - 1])[id] + Is(Some(Last(list)), id)
  {
    if list != [] {
      assert list == list[..|list| - 1] + [Last(list)];
    }
  }

  /** The token, if any, that this command takes off the list, puts back, or buries. */
  function Taken(s: State, x: Worker, o: Outcome): Option<ClaimId> {
    if Takes(s, x, o) then Some(Last(s.db.list)) else None
  }

  function Returned(x: Worker, o: Outcome): Option<ClaimId> {
    if PutsBack(x, o) then Some(x.at.id) else None
  }

  function Buried(x: Worker, o: Outcome): Option<ClaimId> {
    if x.at.Bury? && o != Lost then Some(x.at.id) else None
  }

  /** A worker keeps its token, passes it on, or is charged with its end. */
  lemma TokenMoves(s: State, x: Worker, o: Outcome, id: ClaimId)
    requires PayloadsNameTheirClaim(s)
    ensures Is(Token(NextWorkAt(s, x, o)), id) + Is(Returned(x, o), id) + Is(Buried(x, o), id)
            + Is(Retires(s, x, o), id) + Is(Drops(s, x, o), id)
            == Is(Taken(s, x, o), id) + Is(Token(x.at), id)
  {
  }

  lemma ListMoves(s: State, x: Worker, o: Outcome, id: ClaimId)
    ensures multiset(ListAfterWork(s, x, o))[id] + Is(Taken(s, x, o), id)
            == multiset(s.db.list)[id] + Is(Returned(x, o), id)
  {
    if PutsBack(x, o) {
      ListCounts(s.db.list, id, x.at.id);
    } else if Takes(s, x, o) {
      ListCounts(s.db.list, id, Last(s.db.list));
    }
  }

  lemma WorkConserves(s: State, w: nat, o: Outcome, id: ClaimId)
    requires Conserved(s, id) && PayloadsNameTheirClaim(s) && w < |s.workers|
    ensures Conserved(WorkStep(s, w, o), id)
  {
    var x, t := s.workers[w], WorkStep(s, w, o);
    TokenMoves(s, x, o, id);
    ListMoves(s, x, o, id);
    HeldUpdate(s.workers, w, t.workers[w], id);
    if x.at.Bury? {
      ListCounts(s.db.dlq, id, x.at.id);
    }
    BagCounts(s.log.retired, Retires(s, x, o), id);
    BagCounts(s.log.dropped, Drops(s, x, o), id);
  }

  lemma BagCounts(bag: multiset<ClaimId>, token: Option<ClaimId>, id: ClaimId)
    ensures (bag + Bag(token))[id] == bag[id] + Is(token, id)
  {
  }

  lemma CreateConserves(s: State, i: nat, o: Outcome, uuid: ClaimId, id: ClaimId)
    requires Conserved(s, id) && i < |s.creators|
    ensures Conserved(CreateStep(s, i, o, uuid), id)
  {
    Frames.CreateFrames(s, i, o, uuid);
    var c := s.creators[i];
    if Enqueues(c, o) {
      ListCounts(s.db.list, id, c.claim.value);
      BagCounts(s.log.added, Some(c.claim.value), id);
    }
  }

  lemma RedeliverConserves(s: State, pushed: ClaimId, id: ClaimId)
    requires Conserved(s, id)
    ensures Conserved(RedeliverStep(s, pushed), id)
  {
    ListCounts(s.db.list, id, pushed);
    BagCounts(s.log.redelivered, Some(pushed), id);
  }

  lemma KillConserves(s: State, w: nat, id: ClaimId)
    requires Conserved(s, id) && w < |s.workers|
    ensures Conserved(KillWorkerStep(s, w), id)
  {
    HeldUpdate(s.workers, w, s.workers[w].(at := Halted), id);
    BagCounts(s.log.dropped, Token(s.workers[w].at), id);
  }

  lemma BootConserves(s: State, id: ClaimId)
    requires Conserved(s, id)
    ensures Conserved(Step(s, Boot), id)
  {
    assert Holdings(s.workers + [Worker(true, 0, Pop)], id) == Holdings(s.workers, id) + [0];
    SumAppend(Holdings(s.workers, id), 0);
  }

  lemma StopConserves(s: State, w: nat, id: ClaimId)
    requires Conserved(s, id) && w < |s.workers|
    ensures Conserved(Step(s, Stop(w)), id)
  {
    HeldUpdate(s.workers, w, s.workers[w].(running := false), id);
  }

  lemma OtherConserves(s: State, a: Action, id: ClaimId)
    requires Conserved(s, id) && Enabled(s, a) && !a.Create? && !a.Work? && !a.Redeliver?
    requires !a.Boot? && !a.Stop? && !a.KillWorker?
    ensures Conserved(Step(s, a), id)
  {
    if a.Update? {
      Frames.UpdateFrames(s, a.updater, a.outcome);
    } else {
      Frames.OtherFrames(s, a);
      Frames.OtherLedger(s, a);
      assert Step(s, a).workers == s.workers;
    }
  }

  lemma StepConserves(s: State, a: Action, id: ClaimId)
    requires Conserved(s, id) && PayloadsNameTheirClaim(s)
    ensures Conserved(Step(s, a), id)
  {
    if Enabled(s, a) {
      if a.Create? {
        CreateConserves(s, a.creator, a.outcome, a.uuid, id);
      } else if a.Work? {
        WorkConserves(s, a.worker, a.outcome, id);
      } else if a.Redeliver? {
        RedeliverConserves(s, a.id, id);
      } else if a.Boot? {
        BootConserves(s, id);
      } else if a.Stop? {
        StopConserves(s, a.worker, id);
      } else if a.KillWorker? {
        KillConserves(s, a.worker, id);
      } else {
        OtherConserves(s, a, id);
      }
    }
  }

  lemma StepKeepsPayloads(s: State, a: Action)
    requires PayloadsNameTheirClaim(s)
    ensures PayloadsNameTheirClaim(Step(s, a))
  {
    if Enabled(s, a) {
      match a
      case Work(w, o) => Frames.WorkFrames(s, w, o);
      case Update(u, o) => Frames.UpdateFrames(s, u, o);
      case _ =>
    }
  }

  lemma {:induction false} AlwaysPayloads(limit: nat, actions: seq<Action>)
    ensures PayloadsNameTheirClaim(Run(Init(limit), actions))
  {
    if actions != [] {
      var front := actions[..|actions| - 1];
      AlwaysPayloads(limit, front);
      StepKeepsPayloads(Run(Init(limit), front), actions[|actions| - 1]);
    }
  }

  /** In every reachable state, the tokens of a claim that exist or met their end are exactly
      those that `add` pushed, plus whatever was put back by hand. */
  lemma {:induction false} AlwaysConserved(limit: nat, actions: seq<Action>, id: ClaimId)
    ensures Conserved(Run(Init(limit), actions), id)
  {
    if actions != [] {
      var front := actions[..|actions| - 1];
      AlwaysConserved(limit, front, id);
      AlwaysPayloads(limit, front);
      StepConserves(Run(Init(limit), front), actions[|actions| - 1], id);
    }
  }

  // ---------------------------------------------------------------- one push per claim

  predicate BeforePush(at: CreateAt) {
    Rowless(at) || at.MarkPending? || at.MarkTtl? || at.StorePayload? || at.Push?
  }

  /** `add` has pushed an identifier at most once, and only for a caller that got that far. */
  predicate PushedOnce(s: State) {
    forall id | id in s.log.added :: PushedByItsCaller(s, id)
  }

  predicate PushedByItsCaller(s: State, id: ClaimId) {
    && s.log.added[id] == 1
    && id in s.log.issued && s.log.issued[id] < |s.creators|
    && var at := s.creators[s.log.issued[id]].at; !BeforePush(at) && !Unnamed(at)
  }

  lemma CreatePushesOnce(s: State, i: nat, o: Outcome, uuid: ClaimId)
    requires Registered(s) && PushedOnce(s) && Enabled(s, Create(i, o, uuid))
    ensures PushedOnce(CreateStep(s, i, o, uuid))
  {
    var t := CreateStep(s, i, o, uuid);
    forall id | id in t.log.added ensures PushedByItsCaller(t, id) {
      CreatePushesOneOnce(s, i, o, uuid, id);
    }
  }

  lemma CreatePushesOneOnce(s: State, i: nat, o: Outcome, uuid: ClaimId, id: ClaimId)
    requires Registered(s) && PushedOnce(s) && Enabled(s, Create(i, o, uuid))
    requires id in CreateStep(s, i, o, uuid).log.added
    ensures PushedByItsCaller(CreateStep(s, i, o, uuid), id)
  {
    var c := s.creators[i];
    assert Placed(s, c);
    NextPosition(s, c, o);
    PushIsPassedOnce(s, c, o);
    assert Enqueues(c, o) && id == c.claim.value ==> id !in s.log.added;
    assert !(Enqueues(c, o) && id == c.claim.value) ==> id in s.log.added;
  }

  lemma PushIsPassedOnce(s: State, c: Creator, o: Outcome)
    ensures BeforePush(NextCreateAt(s, c, o)) ==> BeforePush(c.at) || c.at.Arm?
    ensures Enqueues(c, o) ==> !BeforePush(NextCreateAt(s, c, o))
  {
  }

  lemma {:induction false} AlwaysPushedOnce(limit: nat, actions: seq<Action>)
    ensures PushedOnce(Run(Init(limit), actions))
  {
    if actions != [] {
      var front, a := actions[..|actions| - 1], actions[|actions| - 1];
      AlwaysPushedOnce(limit, front);
      AlwaysRegistered(limit, front);
      StepPushesOnce(Run(Init(limit), front), a);
    }
  }

  lemma QuietPushesOnce(s: State, t: State)
    requires PushedOnce(s) && t.creators == s.creators && t.log.issued == s.log.issued && t.log.added == s.log.added
    ensures PushedOnce(t)
  {
    assert forall id | id in t.log.added :: PushedByItsCaller(s, id);
  }

  lemma CallersPushNothing(s: State, a: Action)
    requires PushedOnce(s) && Enabled(s, a) && (a.Call? || a.KillCreator?)
    ensures PushedOnce(Step(s, a))
  {
    assert forall id | id in s.log.added :: PushedByItsCaller(s, id);
  }

  lemma StepPushesOnce(s: State, a: Action)
    requires Registered(s) && PushedOnce(s)
    ensures PushedOnce(Step(s, a))
  {
    if Enabled(s, a) {
      if a.Create? {
        CreatePushesOnce(s, a.creator, a.outcome, a.uuid);
      } else if a.Call? || a.KillCreator? {
        CallersPushNothing(s, a);
      } else {
        Frames.OutsideFrames(s, a);
        QuietPushesOnce(s, Step(s, a));
      }
    }
  }

  /** Without redelivery, a claim's token is in at most one place. */
  lemma OneToken(s: State, id: ClaimId)
    requires Reachable(s) && s.log.redelivered[id] == 0
    ensures TokenCount(s, id) == s.log.added[id] <= 1
  {
    var limit, actions :| s == Run(Init(limit), actions);
    AlwaysConserved(limit, actions, id);
    AlwaysPushedOnce(limit, actions);
  }

  // ---------------------------------------------------------------- how much can be lost

  /** A worker that will do no more work once its current clean-up is over. */
  function Finished(at: WorkAt): nat {
    if at.Halted? || (at.Clear? && !at.alive) then 1 else 0
  }

  function FinishedWorkers(workers: seq<Worker>): seq<nat> {
    seq(|workers|, n requires 0 <= n < |workers| => Finished(workers[n].at))
  }

  /** Losses are bounded by missing payloads and by workers that came to an end. */
  predicate LossBounded(s: State) {
    |s.log.dropped| <= |s.log.unreadable| + Sum(FinishedWorkers(s.workers))
  }

  /** A token is lost only with its payload, or together with the worker that held it. */
  lemma DropEndsWorker(s: State, x: Worker, o: Outcome)
    ensures |Bag(Drops(s, x, o))| + Finished(x.at)
            <= Finished(NextWorkAt(s, x, o)) + (if MissesPayload(s, x, o) then 1 else 0)
  {
  }

  lemma WorkBoundsLoss(s: State, w: nat, o: Outcome)
    requires LossBounded(s) && w < |s.workers|
    ensures LossBounded(WorkStep(s, w, o))
  {
    var t, before := WorkStep(s, w, o), FinishedWorkers(s.workers);
    DropEndsWorker(s, s.workers[w], o);
    assert FinishedWorkers(t.workers) == before[w := Finished(t.workers[w].at)];
    SumUpdate(before, w, Finished(t.workers[w].at));
  }

  lemma KillBoundsLoss(s: State, w: nat)
    requires LossBounded(s) && w < |s.workers|
    ensures LossBounded(KillWorkerStep(s, w))
  {
    var before := FinishedWorkers(s.workers);
    assert FinishedWorkers(KillWorkerStep(s, w).workers) == before[w := 1];
    SumUpdate(before, w, 1);
  }

  lemma FinishedStay(s: State, a: Action)
    requires Enabled(s, a) && !a.Create? && !a.Work? && !a.Update? && !a.KillWorker?
    ensures Sum(FinishedWorkers(Step(s, a).workers)) == Sum(FinishedWorkers(s.workers))
  {
    var before, after := FinishedWorkers(s.workers), FinishedWorkers(Step(s, a).workers);
    if a.Boot? {
      assert after == before + [0];
      SumAppend(before, 0);
    } else {
      assert after == before;
    }
  }

  lemma StepBoundsLoss(s: State, a: Action)
    requires LossBounded(s)
    ensures LossBounded(Step(s, a))
  {
    if Enabled(s, a) {
      if a.Create? {
        Frames.CreateFrames(s, a.creator, a.outcome, a.uuid);
      } else if a.Work? {
        WorkBoundsLoss(s, a.worker, a.outcome);
      } else if a.Update? {
        Frames.UpdateFrames(s, a.updater, a.outcome);
      } else if a.KillWorker? {
        KillBoundsLoss(s, a.worker);
      } else {
        Frames.OtherLedger(s, a);
        FinishedStay(s, a);
      }
    }
  }

  /** Over a whole run, at most one token is lost per worker, apart from missing payloads. */
  lemma {:induction false} AlwaysLossBounded(limit: nat, actions: seq<Action>)
    ensures LossBounded(Run(Init(limit), actions))
    ensures var s := Run(Init(limit), actions); |s.log.dropped| <= |s.log.unreadable| + |s.workers|
  {
    if actions != [] {
      var front := actions[..|actions| - 1];
      AlwaysLossBounded(limit, front);
      StepBoundsLoss(Run(Init(limit), front), actions[|actions| - 1]);
    }
    SumBounded(FinishedWorkers(Run(Init(limit), actions).workers));
  }

  // ---------------------------------------------------------------- first in, first out

  function Reverse(xs: seq<ClaimId>): seq<ClaimId> {
    if xs == [] then [] else Reverse(xs[1..]) + [xs[0]]
  }

  lemma {:induction false} ReverseTail(xs: seq<ClaimId>)
    requires xs != []
    ensures |Reverse(xs)| == |xs|
    ensures Reverse(xs) == [Last(xs)] + Reverse(xs[..|xs| - 1])
  {
    if |xs| > 1 {
      ReverseTail(xs[1..]);
      assert xs[1..][..|xs| - 2] == xs[..|xs| - 1][1..];
    } else {
      assert Reverse(xs[1..]) == [];
    }
  }

  /** What was pushed is what was popped, followed by what waits, oldest first. */
  predicate Fifo(s: State) {
    s.log.pushes == s.log.pops + Reverse(s.db.list)
  }

  lemma PushKeepsOrder(pushes: seq<ClaimId>, pops: seq<ClaimId>, list: seq<ClaimId>, id: ClaimId)
    requires pushes == pops + Reverse(list)
    ensures pushes + [id] == pops + Reverse(LPush(list, id))
  {
    assert LPush(list, id)[1..] == list;
  }

  lemma CreateFifo(s: State, i: nat, o: Outcome, uuid: ClaimId)
    requires Fifo(s) && i < |s.creators|
    ensures var t := CreateStep(s, i, o, uuid);
            Fifo(t) && s.log.pushes <= t.log.pushes && s.log.pops <= t.log.pops
  {
    Frames.CreateFrames(s, i, o, uuid);
    if Enqueues(s.creators[i], o) {
      PushKeepsOrder(s.log.pushes, s.log.pops, s.db.list, s.creators[i].claim.value);
    }
  }

  lemma WorkFifo(s: State, w: nat, o: Outcome)
    requires Fifo(s) && w < |s.workers|
    ensures var t := WorkStep(s, w, o);
            Fifo(t) && s.log.pushes <= t.log.pushes && s.log.pops <= t.log.pops
  {
    WorkKeepsOrder(s, s.workers[w], o);
  }

  lemma WorkKeepsOrder(s: State, x: Worker, o: Outcome)
    requires Fifo(s)
    ensures var log := LogAfterWork(s, x, o);
            && log.pushes == log.pops + Reverse(ListAfterWork(s, x, o))
            && s.log.pushes <= log.pushes && s.log.pops <= log.pops
  {
    if PutsBack(x, o) {
      PushKeepsOrder(s.log.pushes, s.log.pops, s.db.list, x.at.id);
    }
    if Takes(s, x, o) {
      ReverseTail(s.db.list);
    }
  }

  lemma StepFifo(s: State, a: Action)
    requires Fifo(s)
    ensures Fifo(Step(s, a)) && s.log.pushes <= Step(s, a).log.pushes && s.log.pops <= Step(s, a).log.pops
  {
    if Enabled(s, a) {
      if a.Create? {
        CreateFifo(s, a.creator, a.outcome, a.uuid);
      } else if a.Work? {
        WorkFifo(s, a.worker, a.outcome);
      } else if a.Redeliver? {
        PushKeepsOrder(s.log.pushes, s.log.pops, s.db.list, a.id);
      } else if a.Update? {
        Frames.UpdateFrames(s, a.updater, a.outcome);
      } else {
        Frames.OtherFrames(s, a);
        Frames.OtherLedger(s, a);
      }
    }
  }

  lemma {:induction false} RunFifo(s: State, actions: seq<Action>)
    requires Fifo(s)
    ensures Fifo(Run(s, actions))
    ensures s.log.pushes <= Run(s, actions).log.pushes && s.log.pops <= Run(s, actions).log.pops
  {
    if actions != [] {
      var front := actions[..|actions| - 1];
      RunFifo(s, front);
      StepFifo(Run(s, front), actions[|actions| - 1]);
    }
  }

  lemma {:induction false} ReverseLength(xs: seq<ClaimId>)
    ensures |Reverse(xs)| == |xs|
  {
    if xs != [] {
      ReverseLength(xs[1..]);
    }
  }

  /** Once an identifier is on record as the next push, it is what the pop of that number returns. */
  lemma PushedTurn(s: State, s': State, t: State, id: ClaimId)
    requires Fifo(s) && Fifo(t) && s'.log.pushes == s.log.pushes + [id] && s'.log.pushes <= t.log.pushes
    ensures var turn := |s.log.pops| + |s.db.list|;
            turn < |t.log.pops| ==> t.log.pops[turn] == id
  {
    ReverseLength(s.db.list);
    var turn := |s.log.pops| + |s.db.list|;
    assert t.log.pushes[turn] == s'.log.pushes[turn] == id;
    assert turn < |t.log.pops| ==> t.log.pops[turn] == t.log.pushes[turn];
  }

  lemma AlwaysFifo(limit: nat, actions: seq<Action>)
    ensures Fifo(Run(Init(limit), actions))
  {
    RunFifo(Init(limit), actions);
  }

  /** From any reachable state: an identifier pushed when n
      wait is what exactly the (n+1)-th later pop returns, whatever any thread does in between. */
  lemma ServedInTurn(s: State, a: Action, s': State, more: seq<Action>, t: State, id: ClaimId)
    requires Reachable(s) && s' == Step(s, a) && t == Run(s', more)
    requires s'.log.pushes == s.log.pushes + [id]
    ensures var turn := |s.log.pops| + |s.db.list|;
            turn < |t.log.pops| ==> t.log.pops[turn] == id
  {
    var limit, actions :| s == Run(Init(limit), actions);
    AlwaysFifo(limit, actions);
    StepFifo(s, a);
    RunFifo(s', more);
    PushedTurn(s, s', t, id);
  }
}
