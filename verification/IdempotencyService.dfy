/** The idempotency entry as the service handles it, command by command. */
module IdempotencyService {
  import opened Basics
  import opened IdempotencyKeys
  import opened ClaimSystem
  import opened World
  import Wedges

  predicate Expiring(db: Store, key: Key) {
    key in db.keys ==> db.keys[key].expires == Some(db.now + 60_000)
  }

  /** The entry, if it is still there, has just been given its minute to live; without a lapse it is
      there, and pending. */
  predicate Locked(s: State, key: Key) {
    && Expiring(s.db, key)
    && (s.log.lapses[key] == 0 ==> key in s.db.keys && s.db.keys[key].mark == InProgress)
  }

  lemma LockedByNow(s: State, trace: seq<Action>, i: nat)
    requires s == Run(Init(s.limit), trace) && i < |s.creators| && s.creators[i].at == Measure
    requires Expiring(s.db, s.creators[i].key)
    ensures Locked(s, s.creators[i].key)
  {
    var key := s.creators[i].key;
    Wedges.AlwaysEntryHeld(s.limit, trace, key);
    if s.log.lapses[key] == 0 {
      assert Wedges.Holds(s.db.keys, key, s.creators[i].at);
    }
  }

  /** The entry names this claim, for a day from now. */
  predicate Completed(db: Store, key: Key, id: ClaimId) {
    key in db.keys && db.keys[key] == Record(Complete(id), Some(db.now + 24 * 60 * 60 * 1000))
  }

  lemma ReleaseLeads(s: State, c: Creator, o: Outcome)
    requires c.at.Release?
    ensures NextCreator(s, c, o, ClaimId([])) ==
            c.(at := Replied(Refused(if o == Acked then c.at.cause else BackendError)))
    ensures StoreAfterCreate(s.db, c, o) == s.db.(keys :=
              if o == Lost then s.db.keys else Without(s.db.keys, c.key))
  {
  }

  lemma FinalizeLeads(s: State, c: Creator, o: Outcome)
    requires c.at.Finalize? && c.claim.Some?
    ensures NextCreator(s, c, o, ClaimId([])) ==
            c.(at := if o == Acked then Replied(Created(c.claim.value)) else CreateAt.Release(Failed))
    ensures StoreAfterCreate(s.db, c, o) == s.db.(keys :=
              if o == Lost then s.db.keys
              else s.db.keys[c.key := Record(Complete(c.claim.value), Some(s.db.now + COMPLETE_TTL))])
    ensures o != Lost ==> Completed(StoreAfterCreate(s.db, c, o), c.key, c.claim.value)
  {
  }

  lemma ArmLeads(s: State, c: Creator, o: Outcome, uuid: ClaimId)
    requires c.at.Arm?
    ensures NextCreator(s, c, o, uuid) ==
            if o == Acked then c.(at := Measure, claim := Some(uuid)) else c.(at := Replied(Refused(BackendError)))
    ensures StoreAfterCreate(s.db, c, o) == s.db.(keys :=
              if o == Lost then s.db.keys else ExpireKey(s.db.keys, c.key, s.db.now + PENDING_TTL))
    ensures o != Lost ==> Expiring(StoreAfterCreate(s.db, c, o), c.key)
  {
  }

  /** The idempotency entry of one key. Its methods are run by a caller `i` of `createClaim`. */
  class ClaimIdempotencyService {
    const world: ClaimWorld

    constructor (world: ClaimWorld)
      ensures this.world == world
    {
      this.world := world;
    }

    /** One read of the entry: the completed claim's identifier, if there is one. An exception means that
        the read was reported failed, nothing else. */
    method ClaimExistingClaimId(i: nat, key: Key) returns (r: Result<Option<ClaimId>>)
      requires world.Calling(i, key) && (world.Caller(i).Lookup? || world.Caller(i).Poll?)
      modifies world, world.redis, world.table
      ensures world.Calling(i, key) && world.SameCaller(i)
      ensures r == Done(None) ==>
                if old(world.Caller(i)).Lookup? then world.Caller(i) == Acquire
                else world.Caller(i) == Sleep(old(world.Caller(i)).since, world.system.db.now + 100)
      ensures world.Faulted(CreatorThread(i), r.Error?)
      ensures r.Done? ==>
                forall id :: r.value == Some(id) <==>
                               key in world.redis.keys && world.redis.keys[key].mark == Complete(id)
      ensures r.Done? && r.value.Some? ==> world.Caller(i) == Fetch(r.value.value)
      ensures r.Error? ==> world.Caller(i) == Replied(Refused(BackendError))
    {
      world.Await(CreatorThread(i));
      var state, o := world.redis.Get(key);
      ReadingChangesNothing(world.system, world.system.creators[i], o, ClaimId([]));
      world.RecordCreate(i, o, ClaimId([]));
      match state
      case Error => r := Error;
      case Done(entry) =>
        r := Done(if entry.Some? && entry.value.Complete? then Some(entry.value.claim) else None);
    }

    /** SETNX, then PEXPIRE. A failure of either reaches the client, whatever it left behind.
        The claim's identifier is drawn, fresh, as soon as the lock is held; then the entry, if it is still
        there, has a minute to live, and it is there and pending unless the key has lapsed. */
    method AcquirePendingLock(i: nat, key: Key) returns (r: Result<bool>, claimId: ClaimId)
      requires world.Calling(i, key) && world.Caller(i) == Acquire
      modifies world, world.redis, world.table
      ensures world.Calling(i, key) && world.SameCaller(i)
      ensures r == Done(true) ==> world.Caller(i) == Measure && world.Claim(i) == Some(claimId)
      ensures r == Done(true) ==> claimId !in old(world.system).log.issued && Locked(world.system, key)
      ensures r == Done(false) ==> world.Caller(i).Poll? && world.system.db.now == world.Caller(i).since
      ensures r == Done(false) ==> key in world.redis.keys
      ensures r.Error? ==> world.Caller(i) == Replied(Refused(BackendError))
      ensures world.Faulted(CreatorThread(i), r.Error?)
    {
      world.Await(CreatorThread(i));
      var acquired, o := world.redis.SetNx(key);
      world.RecordCreate(i, o, ClaimId([]));
      match acquired
      case Error => r, claimId := Error, ClaimId([]);
      case Done(false) => r, claimId := Done(false), ClaimId([]);
      case Done(true) => r, claimId := SetTimeToLive(i, key);
    }

    method SetTimeToLive(i: nat, key: Key) returns (r: Result<bool>, claimId: ClaimId)
      requires world.Calling(i, key) && world.Caller(i) == Arm
      modifies world, world.redis, world.table
      ensures world.Calling(i, key) && world.SameCaller(i)
      ensures (r == Done(true) || r == Error) && world.Faulted(CreatorThread(i), r.Error?)
      ensures r.Error? ==> world.Caller(i) == Replied(Refused(BackendError))
      ensures claimId !in old(world.system).log.issued
      ensures r.Done? ==> world.Caller(i) == Measure && world.Claim(i) == Some(claimId) && Locked(world.system, key)
    {
      var armed;
      armed, claimId := ExpireSoon(i, key);
      r := if armed.Done? then Done(true) else Error;
      if r.Done? {
        LockedByNow(world.system, world.trace, i);
      }
    }

    /** PEXPIRE, and the identifier that comes with success. */
    method ExpireSoon(i: nat, key: Key) returns (armed: Result<()>, claimId: ClaimId)
      requires world.Calling(i, key) && world.Caller(i) == Arm
      modifies world, world.redis, world.table
      ensures world.Calling(i, key) && world.SameCaller(i)
      ensures world.Caller(i) == if armed.Done? then Measure else Replied(Refused(BackendError))
      ensures armed.Done? ==> world.Claim(i) == Some(claimId)
      ensures armed.Done? ==> Expiring(world.system.db, key)
      ensures world.Faulted(CreatorThread(i), armed.Error?)
      ensures claimId !in old(world.system).log.issued
    {
      world.Await(CreatorThread(i));
      claimId := FreshId(world.system.log.issued.Keys);
      var o;
      armed, o := world.redis.PExpire(key, PENDING_TTL);
      ArmLeads(world.system, world.system.creators[i], o, claimId);
      world.RecordCreate(i, o, claimId);
    }

    /** Poll until the entry is complete, or two seconds have passed. */
    method WaitForCompletion(i: nat, key: Key) returns (r: Result<Option<ClaimId>>)
      requires world.Calling(i, key) && world.Caller(i).Poll? && world.Caller(i).since == world.system.db.now
      modifies world, world.redis, world.table
      ensures world.Calling(i, key) && world.SameCaller(i)
      ensures r.Done? && r.value.Some? ==> world.Caller(i) == Fetch(r.value.value)
      ensures r == Done(None) ==>
                world.Caller(i) == Replied(Refused(Busy))
                  && world.system.db.now >= old(world.system.db.now) + 2_000
      ensures r.Error? ==> world.Caller(i) == Replied(Refused(BackendError))
      ensures world.Faulted(CreatorThread(i), r.Error?)
    {
      var startedAt := world.redis.now;
      while world.redis.now - startedAt < WAIT_TIMEOUT
        invariant world.Calling(i, key) && world.SameCaller(i) && world.Faulted(CreatorThread(i), false)
        invariant startedAt == old(world.system.db.now) <= world.system.db.now
        invariant (world.Caller(i) == Poll(startedAt) && world.system.db.now < startedAt + WAIT_TIMEOUT)
                  || (world.Caller(i) == Replied(Refused(Busy)) && world.system.db.now >= startedAt + WAIT_TIMEOUT)
        decreases startedAt + WAIT_TIMEOUT - world.system.db.now
      {
        var existing := ClaimExistingClaimId(i, key);
        if existing.Error? || existing.value.Some? {
          return existing;
        }
        world.Delay(CreatorThread(i), POLL_INTERVAL);
        world.RecordCreate(i, Acked, ClaimId([]));
      }
      r := Done(None);
    }

    method Finalize(i: nat, key: Key, claimId: ClaimId) returns (r: Result<()>)
      requires world.Calling(i, key) && world.Caller(i) == CreateAt.Finalize && world.Claim(i) == Some(claimId)
      modifies world, world.redis, world.table
      ensures world.Calling(i, key) && world.SameCaller(i)
      ensures r.Done? ==> world.Caller(i) == Replied(Created(claimId)) && Completed(world.system.db, key, claimId)
      ensures r.Error? ==> world.Caller(i) == CreateAt.Release(Failed)
      ensures world.Faulted(CreatorThread(i), r.Error?)
    {
      world.Await(CreatorThread(i));
      var o;
      r, o := world.redis.SetEx(key, COMPLETE_TTL, Complete(claimId));
      FinalizeLeads(world.system, world.system.creators[i], o);
      world.RecordCreate(i, o, ClaimId([]));
    }

    /** The entry is deleted without looking whose it is. */
    method Release(i: nat, key: Key) returns (r: Result<()>)
      requires world.Calling(i, key) && world.Caller(i).Release?
      modifies world, world.redis, world.table
      ensures world.Calling(i, key) && world.SameCaller(i)
      ensures r.Done? ==> world.Caller(i) == Replied(Refused(old(world.Caller(i)).cause)) && key !in world.redis.keys
      ensures r.Error? ==> world.Caller(i) == Replied(Refused(BackendError))
      ensures world.Faulted(CreatorThread(i), r.Error?)
    {
      world.Await(CreatorThread(i));
      var o;
      r, o := world.redis.Del(key);
      ReleaseLeads(world.system, world.system.creators[i], o);
      world.RecordCreate(i, o, ClaimId([]));
    }
  }

  /** A stand-in for the identifier supply: an identifier nobody has drawn. */
  method FreshId(issued: set<ClaimId>) returns (id: ClaimId)
    ensures id !in issued
  {
    var rest: set<ClaimId>, length: nat := issued, 0;
    while rest != {}
      invariant rest <= issued && forall x | x in issued - rest :: |x.text| < length
      decreases |rest|
    {
      var x :| x in rest;
      if |x.text| >= length {
        length := |x.text| + 1;
      }
      rest := rest - {x};
    }
    id := ClaimId(seq(length, _ => 0x30));
  }
}
