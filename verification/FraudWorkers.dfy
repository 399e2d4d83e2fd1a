/** The fraud worker: its loop, one delivery, and what happens when a delivery fails. */
module FraudWorkers {
  import opened Basics
  import opened IdempotencyKeys
  import opened Lifecycle
  import opened ClaimSystem
  import opened World
  import opened History
  import Retries
  import Ownership
  import Survival
  import QueueService
  import opened ClaimServices

  /** The claim has been through the three stages, and this author made all of its changes. */
  predicate AllDoneBy(s: State, id: ClaimId, author: Author) {
    && id in s.log.history && |s.log.history[id]| == 4
    && s.log.history[id][1..] ==
       [Change(Processing, author), Change(FraudChecking, author), Change(Decision(id), author)]
  }

  /** In a walk through the transition table there is one place for each of the three. */
  lemma ThreeInOrder(s: State, id: ClaimId, author: Author)
    requires Chronicled(s, id)
    requires OnRecord(s.log.history, id, Change(Processing, author))
    requires OnRecord(s.log.history, id, Change(FraudChecking, author))
    requires OnRecord(s.log.history, id, Change(Decision(id), author))
    ensures AllDoneBy(s, id, author)
  {
    var h := s.log.history[id];
    var a :| 0 <= a < |h| && h[a] == Change(Processing, author);
    var b :| 0 <= b < |h| && h[b] == Change(FraudChecking, author);
    var c :| 0 <= c < |h| && h[c] == Change(Decision(id), author);
    PathsAreShort(Walk(h));
    PlacesOfStages(Walk(h), a, b, c);
  }

  lemma PlacesOfStages(walk: seq<Status>, a: nat, b: nat, c: nat)
    requires IsPath(walk) && |walk| <= 4 && a < |walk| && b < |walk| && c < |walk|
    requires walk[a] == Processing && walk[b] == FraudChecking && Terminal(walk[c])
    ensures a == 1 && b == 2 && c == 3
  {
    assert Allowed(walk[a - 1], walk[a]) && Allowed(walk[b - 1], walk[b]) && Allowed(walk[c - 1], walk[c]);
  }

  lemma InspectLeads(s: State, x: Worker, o: Outcome)
    requires x.at.Inspect?
    ensures var id := x.at.id;
            && StoreAfterWork(s, x, o) == s.db
            && NextWorkAt(s, x, o) == (if o != Acked || id !in s.db.rows then Count(id)
                                       else if Terminal(s.db.rows[id].status) then Clear(id, true) else Read(id, 0))
            && (o == Acked && id in s.db.rows && Terminal(s.db.rows[id].status) ==>
                  Retires(s, x, o) == Some(id))
  {
  }

  class FraudWorker {
    const world: ClaimWorld
    const claims: ClaimService
    const queue: QueueService.RedisQueueService

    constructor (claims: ClaimService)
      ensures this.claims == claims && world == claims.world && queue.world == world
    {
      this.world := claims.world;
      this.claims := claims;
      this.queue := new QueueService.RedisQueueService(claims.world);
    }

    ghost predicate Wired()
    {
      claims.world == world && queue.world == world
    }

    /** `onModuleDestroy`, in any thread, turns this off. */
    function IsRunning(w: nat): bool
      reads world
    {
      w < |world.system.workers| && world.system.workers[w].running
    }

    /** Pop and process until asked to stop, or until an exception ends the loop; at most this many
        rounds of it. Between rounds the worker stands at the head of its loop, without a token. A worker
        that is still there has gone through all the rounds, each of them a delivery or half a second of
        waiting; one that has come to an end was told to stop, or an exception has escaped it. */
    method Start(w: nat, rounds: nat) returns (ghost idle: nat, ghost delivered: nat)
      requires Wired() && world.Working(w) && world.Doing(w) == LoopHead(IsRunning(w))
      modifies world, world.redis, world.table
      ensures world.Working(w) && (world.Doing(w) == Halted || (IsRunning(w) && world.Doing(w) == Pop))
      ensures world.Doing(w) == Halted ==> w in world.system.faults.ended || !IsRunning(w)
      ensures world.Doing(w) == Pop ==> idle + delivered == rounds
      ensures world.system.db.now >= old(world.system).db.now + 500 * idle
      ensures |world.system.log.runs| >= |old(world.system).log.runs| + delivered
    {
      var left := rounds;
      idle, delivered := 0, 0;
      while left > 0 && IsRunning(w)
        invariant world.Working(w) && world.Doing(w) == LoopHead(IsRunning(w))
        invariant idle + delivered + left == rounds
        invariant world.system.db.now >= old(world.system).db.now + 500 * idle
        invariant |world.system.log.runs| >= |old(world.system).log.runs| + delivered
      {
        left := left - 1;
        var payload := queue.GetNext(w);
        if payload.Error? || !IsRunning(w) {
          break;
        }
        if payload.value.None? {
          Rest(w);
          idle := idle + 1;
        } else {
          var ok := ProcessClaim(w, payload.value.value.claim);
          if !ok {
            break;
          }
          delivered := delivered + 1;
        }
      }
      if IsRunning(w) {
        Survival.HaltedForAReason(world.system, w);
      }
    }

    /** Half a second, then the head of the loop. */
    method Rest(w: nat)
      requires world.Working(w) && world.Doing(w).Nap? && world.Doing(w).until <= world.system.db.now + 500
      modifies world, world.redis, world.table
      ensures world.Working(w) && world.Doing(w) == LoopHead(world.system.workers[w].running)
      ensures world.Later() && world.system.db.now >= old(world.system).db.now + 500
    {
      world.Delay(WorkerThread(w), IDLE_DELAY);
      world.RecordWork(w, Acked);
    }

    /** One delivery, from its first read to its clean-up; `ok` unless an exception escapes. */
    method ProcessClaim(w: nat, claimId: ClaimId) returns (ok: bool)
      requires Wired() && world.Working(w) && world.Doing(w) == Inspect(claimId)
      modifies world, world.redis, world.table
      ensures world.Working(w)
      ensures world.Later()
      ensures world.Doing(w) == if ok && world.system.workers[w].running then Pop else Halted
    {
      var driven := Drive(w, claimId);
      var handled := true;
      if driven.Error? {
        handled := HandleFailure(w, claimId);
      }
      var cleared := queue.ClearPending(w, claimId);
      ok := handled && cleared.Done?;
    }

    /** The body of the try block: skip a terminal claim, or take the claim through its three
        stages. Without an exception the token is retired, and with workers as the only callers
        the claim has gone all the way to the verdict of its identifier. */
    method Drive(w: nat, claimId: ClaimId) returns (r: Result<()>)
      requires Wired() && world.Working(w) && world.Doing(w) == Inspect(claimId)
      modifies world, world.redis, world.table
      ensures world.Working(w)
      ensures world.Doing(w) == if r.Done? then Clear(claimId, true) else Count(claimId)
      ensures r.Done? ==> claimId in world.system.log.retired && Decided(world.system, claimId)
      ensures world.Later()
    {
      var terminal := InspectClaim(w, claimId);
      if terminal.Error? {
        return Error;
      }
      if !terminal.value {
        r := AllStages(w, claimId);
        if r.Error? {
          return;
        }
      }
      r := Done(());
      if world.system.updaters == [] {
        Ownership.RetiredMeansDecided(world.system, claimId);
      }
    }

    ghost predicate Decided(s: State, id: ClaimId) {
      s.updaters == [] ==>
        id in s.log.history && Walk(s.log.history[id]) == [Pending, Processing, FraudChecking, Decision(id)]
    }

    /** `getClaimInternal`, and whether its answer is terminal; a missing claim is an exception. */
    method InspectClaim(w: nat, claimId: ClaimId) returns (r: Result<bool>)
      requires world.Working(w) && world.Doing(w) == Inspect(claimId)
      modifies world, world.redis, world.table
      ensures world.Working(w)
      ensures world.Doing(w) == match r
                                case Error => Count(claimId)
                                case Done(true) => Clear(claimId, true)
                                case Done(false) => Read(claimId, 0)
      ensures r == Done(true) ==> claimId in world.system.log.retired
      ensures world.Later()
      ensures world.Faulted(WorkerThread(w), false) || (world.Faulted(WorkerThread(w), true) && r.Error?)
      ensures r.Error? && world.Faulted(WorkerThread(w), false) ==> claimId !in world.table.rows
      ensures r.Done? ==> claimId in world.table.rows && (r.value <==> Terminal(world.table.rows[claimId].status))
    {
      world.Await(WorkerThread(w));
      var claim, o := world.table.FindUnique(claimId);
      InspectLeads(world.system, world.system.workers[w], o);
      world.RecordWork(w, o);
      r := if claim.Error? || claim.value.None? then Error else Done(Terminal(claim.value.value.status));
    }

    /** PROCESSING, a second, FRAUD_CHECKING, another second, the verdict. Success means that these three
        changes, in this order and all in this delivery's name, are what the claim has been through. */
    method AllStages(w: nat, claimId: ClaimId) returns (r: Result<()>)
      requires Wired() && world.Working(w) && world.Doing(w) == Read(claimId, 0)
      modifies world, world.redis, world.table
      ensures world.Working(w)
      ensures world.Doing(w) == if r.Done? then Clear(claimId, true) else Count(claimId)
      ensures r.Done? ==> claimId in world.system.log.retired && world.Faulted(WorkerThread(w), false)
      ensures world.Later() && (r.Done? ==> world.system.db.now >= old(world.system).db.now + 2_000)
      ensures r.Done? ==> AllDoneBy(world.system, claimId, AuthorOf(old(world.system), WorkerThread(w)))
    {
      ghost var author := AuthorOf(world.system, WorkerThread(w));
      r := RunStage(w, claimId, 0, Processing);
      if r.Error? {
        return;
      }
      ghost var one := world.system;
      Pause(w, claimId, 1);
      r := RunStage(w, claimId, 1, FraudChecking);
      if r.Error? {
        return;
      }
      ghost var two := world.system;
      Pause(w, claimId, 2);
      r := RunStage(w, claimId, 2, Decision(claimId));
      if r.Done? {
        RecordStays(one, world.system, claimId, Change(Processing, author));
        RecordStays(two, world.system, claimId, Change(FraudChecking, author));
        AlwaysChronicled(world.system.limit, world.trace, claimId);
        ThreeInOrder(world.system, claimId, author);
      }
    }

    method RunStage(w: nat, claimId: ClaimId, ghost stage: Stage, next: Status) returns (r: Result<()>)
      requires Wired() && world.Working(w) && world.Doing(w) == Read(claimId, stage) && next == Target(claimId, stage)
      modifies world, world.redis, world.table
      ensures world.Working(w) && world.Doing(w) == AfterUpdate(claimId, stage, world.system.db.now, r.Done?)
      ensures r.Done? && stage == 2 ==> claimId in world.system.log.retired
      ensures Remembers(old(world.system), world.system) && world.Later()
      ensures world.Faulted(WorkerThread(w), false) || (world.Faulted(WorkerThread(w), true) && r.Error?)
      ensures r.Error? && world.Faulted(WorkerThread(w), false) ==>
                || claimId !in world.table.rows || !Allowed(world.table.rows[claimId].status, next)
                || MovedOn(old(world.system), world.system, claimId)
      ensures AuthorOf(world.system, WorkerThread(w)) == AuthorOf(old(world.system), WorkerThread(w))
      ensures r.Done? ==>
                OnRecord(world.system.log.history, claimId, Change(next, AuthorOf(old(world.system), WorkerThread(w))))
    {
      r := claims.UpdateClaimStatus(Job(WorkerThread(w), claimId, next, stage), WorkerThread(w), claimId, next);
    }

    method Pause(w: nat, claimId: ClaimId, stage: Stage)
      requires world.Working(w) && world.Doing(w) == WorkAt.Pause(claimId, stage, world.system.db.now + STAGE_DELAY)
      modifies world, world.redis, world.table
      ensures world.Working(w) && world.Doing(w) == Read(claimId, stage)
      ensures Remembers(old(world.system), world.system) && world.Later() && world.Faulted(WorkerThread(w), false)
      ensures world.system.db.now >= old(world.system).db.now + 1_000
      ensures AuthorOf(world.system, WorkerThread(w)) == AuthorOf(old(world.system), WorkerThread(w))
    {
      world.Delay(WorkerThread(w), STAGE_DELAY);
      world.RecordWork(w, Acked);
    }

    /** Count the failure; below three put the claim back at the end of the queue, otherwise bury it and
        forget its counter. Without redelivery by hand, it is buried after exactly three deliveries. */
    method HandleFailure(w: nat, claimId: ClaimId) returns (handled: bool)
      requires Wired() && world.Working(w) && world.Doing(w) == Count(claimId)
      modifies world, world.redis, world.table
      ensures world.Working(w) && world.Doing(w) == Clear(claimId, handled)
      ensures world.Later() && world.Faulted(WorkerThread(w), !handled)
      ensures handled ==>
                || (world.redis.list != [] && world.redis.list[0] == claimId)
                || (claimId in world.redis.dlq && claimId !in world.redis.retry)
      ensures handled && world.system.log.redelivered[claimId] == 0 ==>
                (claimId in world.redis.dlq <==> Retries.Deliveries(world.system, claimId) == 3)
    {
      var attempt := queue.IncrementRetry(w, claimId);
      if attempt.Error? {
        return false;
      }
      var canRetry := queue.CanRetry(w, claimId);
      if canRetry.Error? {
        return false;
      }
      var r;
      if canRetry.value {
        r := queue.Requeue(w, claimId);
      } else {
        r := queue.MoveToDlq(w, claimId);
      }
      handled := r.Done?;
      if world.system.log.redelivered[claimId] == 0 {
        Retries.BuriedAfterThree(world.system, claimId);
      }
    }
  }
}
