/** The queue as the service handles it: `add` for callers, the rest for workers. */
module QueueService {
  import opened Basics
  import opened IdempotencyKeys
  import opened ClaimSystem
  import opened World
  import Tokens
  import Outcomes

  /** The payload is the stored one of an identifier that was popped in between. */
  ghost predicate Delivered(s: State, t: State, payload: Payload) {
    && payload.claim in t.db.payloads && t.db.payloads[payload.claim] == payload
    && s.log.pops <= t.log.pops
    && exists n :: |s.log.pops| <= n < |t.log.pops| && t.log.pops[n] == payload.claim
  }

  class RedisQueueService {
    const world: ClaimWorld

    constructor (world: ClaimWorld)
      ensures this.world == world
    {
      this.world := world;
    }

    // -------------------------------------------------------------- run by a caller of createClaim

    /** LLEN; what the caller does with the answer is settled at that moment. */
    method QueueSize(i: nat, key: Key) returns (r: Result<nat>)
      requires world.Calling(i, key) && world.Caller(i) == Measure
      modifies world, world.redis, world.table
      ensures world.Calling(i, key) && world.SameCaller(i) && world.Claim(i) == old(world.Claim(i))
      ensures r.Done? ==> r.value == |world.redis.list|
      ensures r.Done? ==> world.Caller(i) == if r.value >= world.system.limit then Release(Overloaded) else Insert
      ensures r.Error? ==> world.Caller(i) == Release(Failed)
      ensures world.Faulted(CreatorThread(i), r.Error?)
    {
      world.Await(CreatorThread(i));
      var o;
      r, o := world.redis.LLen();
      ReadingChangesNothing(world.system, world.system.creators[i], o, ClaimId([]));
      world.RecordCreate(i, o, ClaimId([]));
    }

    /** Mark the claim as pending, store its payload, push it. Success means it has been pushed,
        this once. */
    method Add(i: nat, key: Key, claimId: ClaimId, identity: Text) returns (r: Result<()>)
      requires world.Calling(i, key) && world.Caller(i) == MarkPending && world.Claim(i) == Some(claimId)
      requires world.system.creators[i].identity == identity
      modifies world, world.redis, world.table
      ensures world.Calling(i, key) && world.SameCaller(i) && world.Claim(i) == Some(claimId)
      ensures r.Done? ==> world.Caller(i) == Finalize && world.system.log.added[claimId] == 1
      ensures r.Error? ==> world.Caller(i) == Compensate
      ensures world.Faulted(CreatorThread(i), r.Error?)
    {
      var inserted := SetMarker(i, key, claimId);
      if inserted.Error? {
        return Error;
      }
      if inserted.value {
        r := ExpireMarker(i, key, claimId);
        if r.Error? {
          return;
        }
        r := StorePayload(i, key, claimId, identity);
        if r.Error? {
          return;
        }
        r := PushClaim(i, key, claimId);
        if r.Error? {
          return;
        }
      }
      r := Done(());
      PushedByNow(i, claimId);
    }

    lemma PushedByNow(i: nat, claimId: ClaimId)
      requires world.Valid() && world.Caller(i) == Finalize && world.Claim(i) == Some(claimId)
      ensures world.system.log.added[claimId] == 1
    {
      Outcomes.AlwaysQueued(world.system.limit, world.trace);
      Tokens.AlwaysPushedOnce(world.system.limit, world.trace);
      assert Outcomes.Queued(world.system, world.system.creators[i]);
    }

    method SetMarker(i: nat, key: Key, claimId: ClaimId) returns (inserted: Result<bool>)
      requires world.Calling(i, key) && world.Caller(i) == MarkPending && world.Claim(i) == Some(claimId)
      modifies world, world.redis, world.table
      ensures world.Calling(i, key) && world.SameCaller(i) && world.Claim(i) == Some(claimId)
      ensures world.Caller(i) == if inserted.Error? then Compensate else if inserted.value then MarkTtl else Finalize
      ensures world.Faulted(CreatorThread(i), inserted.Error?)
    {
      world.Await(CreatorThread(i));
      var o;
      inserted, o := world.redis.SetNxMarker(claimId);
      world.RecordCreate(i, o, ClaimId([]));
    }

    method ExpireMarker(i: nat, key: Key, claimId: ClaimId) returns (r: Result<()>)
      requires world.Calling(i, key) && world.Caller(i) == MarkTtl && world.Claim(i) == Some(claimId)
      modifies world, world.redis, world.table
      ensures world.Calling(i, key) && world.SameCaller(i) && world.Claim(i) == Some(claimId)
      ensures world.Caller(i) == if r.Done? then CreateAt.StorePayload else Compensate
      ensures world.Faulted(CreatorThread(i), r.Error?)
    {
      world.Await(CreatorThread(i));
      var o;
      r, o := world.redis.PExpireMarker(claimId, PAYLOAD_TTL);
      MarkTtlLeads(world.system, world.system.creators[i], o);
      world.RecordCreate(i, o, ClaimId([]));
    }

    method StorePayload(i: nat, key: Key, claimId: ClaimId, identity: Text) returns (r: Result<()>)
      requires world.Calling(i, key) && world.Caller(i) == CreateAt.StorePayload && world.Claim(i) == Some(claimId)
      requires world.system.creators[i].identity == identity
      modifies world, world.redis, world.table
      ensures world.Calling(i, key) && world.SameCaller(i) && world.Claim(i) == Some(claimId)
      ensures world.Caller(i) == if r.Done? then Push else Compensate
      ensures world.Faulted(CreatorThread(i), r.Error?)
    {
      world.Await(CreatorThread(i));
      var o;
      r, o := world.redis.SetExPayload(claimId, identity, PAYLOAD_TTL);
      StoreLeads(world.system, world.system.creators[i], o);
      world.RecordCreate(i, o, ClaimId([]));
    }

    method PushClaim(i: nat, key: Key, claimId: ClaimId) returns (r: Result<()>)
      requires world.Calling(i, key) && world.Caller(i) == Push && world.Claim(i) == Some(claimId)
      modifies world, world.redis, world.table
      ensures world.Calling(i, key) && world.SameCaller(i) && world.Claim(i) == Some(claimId)
      ensures world.Caller(i) == if r.Done? then Finalize else Compensate
      ensures world.Faulted(CreatorThread(i), r.Error?)
    {
      world.Await(CreatorThread(i));
      var o;
      r, o := world.redis.LPushQueue(claimId);
      world.RecordCreate(i, o, ClaimId([]));
    }

    // -------------------------------------------------------------- run by a worker

    /** RPOP, then the payload. Without one the answer is as if the list had been empty. A payload
        that is returned is that of an identifier popped since. */
    method GetNext(w: nat) returns (r: Result<Option<Payload>>)
      requires world.Working(w) && world.Doing(w) == Pop
      modifies world, world.redis, world.table
      ensures world.Working(w)
      ensures world.Later() && world.Faulted(WorkerThread(w), r.Error?)
      ensures r.Error? ==> world.Doing(w) == Halted
      ensures r == Done(None) ==>
                world.Doing(w) == if world.system.workers[w].running then Nap(world.system.db.now + 500) else Halted
      ensures r.Done? && r.value.Some? ==>
                && world.Doing(w) == (if world.system.workers[w].running then Inspect(r.value.value.claim) else Halted)
                && Delivered(old(world.system), world.system, r.value.value)
                && (world.system.workers[w].running ==> |world.system.log.runs| > |old(world.system).log.runs|)
    {
      var claimId := TakeNext(w);
      match claimId
      case Error => r := Error;
      case Done(None) => r := Done(None);
      case Done(Some(id)) => r := LoadPayload(w, id);
    }

    /** RPOP takes the identifier that has waited longest. */
    method TakeNext(w: nat) returns (r: Result<Option<ClaimId>>)
      requires world.Working(w) && world.Doing(w) == Pop
      modifies world, world.redis, world.table
      ensures world.Working(w) && Grows(old(world.system), world.system)
      ensures world.Later() && world.Faulted(WorkerThread(w), r.Error?)
      ensures r.Error? ==> world.Doing(w) == Halted
      ensures r == Done(None) ==>
                && world.redis.list == []
                && world.Doing(w) == if world.system.workers[w].running then Nap(world.system.db.now + 500) else Halted
      ensures r.Done? && r.value.Some? ==>
                && world.Doing(w) == Load(r.value.value) && |old(world.system).log.pops| < |world.system.log.pops|
                && Last(world.system.log.pops) == r.value.value
    {
      world.Await(WorkerThread(w));
      var o;
      ghost var before := world.system;
      r, o := world.redis.RPop();
      PopLeads(before, before.workers[w], o);
      world.RecordWork(w, o);
      GrowsOn(old(world.system), before, world.system);
    }

    method LoadPayload(w: nat, id: ClaimId) returns (r: Result<Option<Payload>>)
      requires world.Working(w) && world.Doing(w) == Load(id)
      modifies world, world.redis, world.table
      ensures world.Working(w) && Grows(old(world.system), world.system)
      ensures world.Later() && world.Faulted(WorkerThread(w), r.Error?)
      ensures r.Error? ==> world.Doing(w) == Halted
      ensures r == Done(None) ==>
                && id !in world.redis.payloads
                && world.Doing(w) == if world.system.workers[w].running then Nap(world.system.db.now + 500) else Halted
      ensures r.Done? && r.value.Some? ==>
                && world.Doing(w) == (if world.system.workers[w].running then Inspect(r.value.value.claim) else Halted)
                && r.value.value.claim == id && id in world.redis.payloads && world.redis.payloads[id] == r.value.value
                && (world.system.workers[w].running ==> |world.system.log.runs| > |old(world.system).log.runs|)
    {
      world.Await(WorkerThread(w));
      Tokens.AlwaysPayloads(world.system.limit, world.trace);
      var o;
      ghost var before := world.system;
      r, o := world.redis.GetPayload(id);
      LoadLeads(before, before.workers[w], o);
      world.RecordWork(w, o);
      GrowsOn(old(world.system), before, world.system);
    }

    method IncrementRetry(w: nat, id: ClaimId) returns (r: Result<nat>)
      requires world.Working(w) && world.Doing(w) == Count(id)
      modifies world, world.redis, world.table
      ensures world.Working(w) && world.Doing(w) == if r.Done? then Check(id) else Clear(id, false)
      ensures r.Done? ==> r.value == RetryCount(world.redis.retry, id) >= 1
      ensures world.Later() && world.Faulted(WorkerThread(w), r.Error?)
    {
      world.Await(WorkerThread(w));
      var o;
      r, o := world.redis.HIncrBy(id);
      world.RecordWork(w, o);
    }

    /** Fewer than three failures so far? */
    method CanRetry(w: nat, id: ClaimId) returns (r: Result<bool>)
      requires world.Working(w) && world.Doing(w) == Check(id)
      modifies world, world.redis, world.table
      ensures world.Working(w)
      ensures r.Error? ==> world.Doing(w) == Clear(id, false)
      ensures r.Done? ==> world.Doing(w) == (if r.value then WorkAt.Requeue(id) else Bury(id))
                          && r.value == (RetryCount(world.redis.retry, id) < 3)
      ensures world.Later() && world.Faulted(WorkerThread(w), r.Error?)
    {
      world.Await(WorkerThread(w));
      var count, o := world.redis.HGet(id);
      world.RecordWork(w, o);
      r := if count.Done? then Done(count.value < MAX_ATTEMPTS) else Error;
    }

    method Requeue(w: nat, id: ClaimId) returns (r: Result<()>)
      requires world.Working(w) && world.Doing(w) == WorkAt.Requeue(id)
      modifies world, world.redis, world.table
      ensures world.Working(w) && world.Doing(w) == Clear(id, r.Done?)
      ensures r.Done? ==> world.redis.list != [] && world.redis.list[0] == id
      ensures world.Later() && world.Faulted(WorkerThread(w), r.Error?)
    {
      world.Await(WorkerThread(w));
      var o;
      r, o := world.redis.LPushQueue(id);
      world.RecordWork(w, o);
    }

    /** Onto the dead-letter queue, and the retry counter is forgotten. */
    method MoveToDlq(w: nat, id: ClaimId) returns (r: Result<()>)
      requires world.Working(w) && world.Doing(w) == Bury(id)
      modifies world, world.redis, world.table
      ensures world.Working(w) && world.Doing(w) == Clear(id, r.Done?)
      ensures r.Done? ==> id in world.redis.dlq && id !in world.redis.retry
      ensures world.Later() && world.Faulted(WorkerThread(w), r.Error?)
    {
      world.Await(WorkerThread(w));
      var o;
      r, o := world.redis.LPushDlq(id);
      world.RecordWork(w, o);
      if r.Done? {
        r := ForgetRetries(w, id);
      }
    }

    method ForgetRetries(w: nat, id: ClaimId) returns (r: Result<()>)
      requires world.Working(w) && world.Doing(w) == Forget(id) && id in world.redis.dlq
      modifies world, world.redis, world.table
      ensures world.Working(w) && world.Doing(w) == Clear(id, r.Done?) && id in world.redis.dlq
      ensures r.Done? ==> id !in world.redis.retry
      ensures world.Later() && world.Faulted(WorkerThread(w), r.Error?)
    {
      world.Await(WorkerThread(w));
      var o;
      r, o := world.redis.HDel(id);
      world.RecordWork(w, o);
    }

    /** The last command of a delivery; when it fails, so does the worker. */
    method ClearPending(w: nat, id: ClaimId) returns (r: Result<()>)
      requires world.Working(w) && world.Doing(w).Clear? && world.Doing(w).id == id
      modifies world, world.redis, world.table
      ensures world.Working(w)
      ensures world.Doing(w) ==
              if r.Done? && old(world.Doing(w)).alive && world.system.workers[w].running then Pop else Halted
      ensures world.Later() && world.Faulted(WorkerThread(w), r.Error?)
      ensures r.Done? ==> id !in world.redis.markers
    {
      world.Await(WorkerThread(w));
      var o;
      r, o := world.redis.DelMarker(id);
      ClearLeads(world.system, world.system.workers[w], o);
      world.RecordWork(w, o);
    }
  }

  lemma StoreLeads(s: State, c: Creator, o: Outcome)
    requires c.at.StorePayload? && c.claim.Some?
    ensures NextCreator(s, c, o, ClaimId([])) == c.(at := if o == Acked then Push else Compensate)
    ensures StoreAfterCreate(s.db, c, o) == s.db.(payloads :=
              if o == Lost then s.db.payloads
              else s.db.payloads[c.claim.value := Payload(c.claim.value, c.identity, s.db.now + PAYLOAD_TTL)])
  {
  }

  lemma MarkTtlLeads(s: State, c: Creator, o: Outcome)
    requires c.at.MarkTtl? && c.claim.Some?
    ensures NextCreator(s, c, o, ClaimId([])) == c.(at := if o == Acked then CreateAt.StorePayload else Compensate)
    ensures StoreAfterCreate(s.db, c, o) == s.db.(markers :=
              if o == Lost || c.claim.value !in s.db.markers then s.db.markers
              else s.db.markers[c.claim.value := Some(s.db.now + PAYLOAD_TTL)])
  {
  }

  /** Where RPOP leads, whatever becomes of it. */
  lemma PopLeads(s: State, x: Worker, o: Outcome)
    requires x.at.Pop?
    ensures StoreAfterWork(s, x, o) ==
            s.db.(list := if o == Lost || s.db.list == [] then s.db.list else s.db.list[..|s.db.list| - 1])
    ensures Takes(s, x, o) <==> o != Lost && s.db.list != []
    ensures NextWorkAt(s, x, o) ==
            if o != Acked then Halted
            else if s.db.list != [] then Load(Last(s.db.list))
            else if x.running then Nap(s.db.now + 500) else Halted
  {
  }

  lemma LoadLeads(s: State, x: Worker, o: Outcome)
    requires x.at.Load?
    ensures var id := x.at.id;
            && StoreAfterWork(s, x, o) == s.db && !Takes(s, x, o)
            && NextWorkAt(s, x, o) ==
               (if o != Acked || !x.running then Halted
                else if id in s.db.payloads then Inspect(s.db.payloads[id].claim) else Nap(s.db.now + 500))
            && (Delivers(s, x, o) <==> o == Acked && x.running && id in s.db.payloads)
  {
  }

  lemma ClearLeads(s: State, x: Worker, o: Outcome)
    requires x.at.Clear?
    ensures NextWorker(s, x, o) == x.(at := if o == Acked && x.at.alive then LoopHead(x.running) else Halted)
    ensures StoreAfterWork(s, x, o) ==
            s.db.(markers := if o == Lost then s.db.markers else Without(s.db.markers, x.at.id))
  {
  }
}
