/** The store and the threads as the service's code meets them: objects whose commands may fail,
    and a world in which every other thread may run between any two commands. */
module World {
  import opened Basics
  import opened IdempotencyKeys
  import opened Lifecycle
  import opened ClaimSystem
  import Frames
  import Registry
  import opened History

  /** The result of an awaited call: a value, or an exception. */
  datatype Result<+T> = Done(value: T) | Error

  /** The answer to a command, given what became of it. */
  function Answer<T>(o: Outcome, value: T): Result<T> {
    if o == Acked then Done(value) else Error
  }

  /** The Redis commands the services use, one atomic step each. The name spaces of the keys are
      kept apart, as their prefixes keep them. */
  class Redis {
    var now: nat
    var keys: map<Key, Record>
    var markers: map<ClaimId, Option<nat>>
    var payloads: map<ClaimId, Payload>
    var list: seq<ClaimId>
    var dlq: seq<ClaimId>
    var retry: map<ClaimId, nat>

    constructor ()
      ensures now == 0 && keys == map[] && markers == map[] && payloads == map[]
      ensures list == [] && dlq == [] && retry == map[]
    {
      now, keys, markers, payloads, list, dlq, retry := 0, map[], map[], map[], [], [], map[];
    }

    method Get(key: Key) returns (r: Result<Option<Mark>>, o: Outcome)
      ensures r == Answer(o, if key in keys then Some(keys[key].mark) else None)
    {
      o := *;
      r := Answer(o, if key in keys then Some(keys[key].mark) else None);
    }

    method SetNx(key: Key) returns (r: Result<bool>, o: Outcome)
      modifies this`keys
      ensures keys == if o == Lost then old(keys) else SetIfAbsent(old(keys), key)
      ensures r == Answer(o, key !in old(keys))
    {
      o := *;
      r := Answer(o, key !in keys);
      if o != Lost && key !in keys {
        keys := keys[key := Record(InProgress, None)];
      }
    }

    method PExpire(key: Key, ttl: nat) returns (r: Result<()>, o: Outcome)
      modifies this`keys
      ensures keys == if o == Lost then old(keys) else ExpireKey(old(keys), key, now + ttl)
      ensures r == Answer(o, ())
    {
      o := *;
      r := Answer(o, ());
      if o != Lost && key in keys {
        keys := keys[key := keys[key].(expires := Some(now + ttl))];
      }
    }

    method SetEx(key: Key, ttl: nat, mark: Mark) returns (r: Result<()>, o: Outcome)
      modifies this`keys
      ensures keys == if o == Lost then old(keys) else old(keys)[key := Record(mark, Some(now + ttl))]
      ensures r == Answer(o, ())
    {
      o := *;
      r := Answer(o, ());
      if o != Lost {
        keys := keys[key := Record(mark, Some(now + ttl))];
      }
    }

    method Del(key: Key) returns (r: Result<()>, o: Outcome)
      modifies this`keys
      ensures keys == if o == Lost then old(keys) else Without(old(keys), key)
      ensures r == Answer(o, ())
    {
      o := *;
      r := Answer(o, ());
      if o != Lost {
        keys := Without(keys, key);
      }
    }

    method SetNxMarker(id: ClaimId) returns (r: Result<bool>, o: Outcome)
      modifies this`markers
      ensures markers == if o == Lost || id in old(markers) then old(markers) else old(markers)[id := None]
      ensures r == Answer(o, id !in old(markers))
    {
      o := *;
      r := Answer(o, id !in markers);
      if o != Lost && id !in markers {
        markers := markers[id := None];
      }
    }

    method PExpireMarker(id: ClaimId, ttl: nat) returns (r: Result<()>, o: Outcome)
      modifies this`markers
      ensures markers == if o == Lost || id !in old(markers) then old(markers) else old(markers)[id := Some(now + ttl)]
      ensures r == Answer(o, ())
    {
      o := *;
      r := Answer(o, ());
      if o != Lost && id in markers {
        markers := markers[id := Some(now + ttl)];
      }
    }

    method DelMarker(id: ClaimId) returns (r: Result<()>, o: Outcome)
      modifies this`markers
      ensures markers == if o == Lost then old(markers) else Without(old(markers), id)
      ensures r == Answer(o, ())
    {
      o := *;
      r := Answer(o, ());
      if o != Lost {
        markers := Without(markers, id);
      }
    }

    method SetExPayload(id: ClaimId, owner: Text, ttl: nat) returns (r: Result<()>, o: Outcome)
      modifies this`payloads
      ensures payloads == if o == Lost then old(payloads) else old(payloads)[id := Payload(id, owner, now + ttl)]
      ensures r == Answer(o, ())
    {
      o := *;
      r := Answer(o, ());
      if o != Lost {
        payloads := payloads[id := Payload(id, owner, now + ttl)];
      }
    }

    method GetPayload(id: ClaimId) returns (r: Result<Option<Payload>>, o: Outcome)
      ensures r == Answer(o, if id in payloads then Some(payloads[id]) else None)
    {
      o := *;
      r := Answer(o, if id in payloads then Some(payloads[id]) else None);
    }

    method LLen() returns (r: Result<nat>, o: Outcome)
      ensures r == Answer(o, |list|)
    {
      o := *;
      r := Answer(o, |list|);
    }

    method LPushQueue(id: ClaimId) returns (r: Result<()>, o: Outcome)
      modifies this`list
      ensures list == if o == Lost then old(list) else LPush(old(list), id)
      ensures r == Answer(o, ())
    {
      o := *;
      r := Answer(o, ());
      if o != Lost {
        list := [id] + list;
      }
    }

    method LPushDlq(id: ClaimId) returns (r: Result<()>, o: Outcome)
      modifies this`dlq
      ensures dlq == if o == Lost then old(dlq) else LPush(old(dlq), id)
      ensures r == Answer(o, ())
    {
      o := *;
      r := Answer(o, ());
      if o != Lost {
        dlq := [id] + dlq;
      }
    }

    method RPop() returns (r: Result<Option<ClaimId>>, o: Outcome)
      modifies this`list
      ensures list == if o == Lost || old(list) == [] then old(list) else old(list)[..|old(list)| - 1]
      ensures r == Answer(o, if old(list) == [] then None else Some(Last(old(list))))
    {
      o := *;
      r := Answer(o, if list == [] then None else Some(Last(list)));
      if o != Lost && list != [] {
        list := list[..|list| - 1];
      }
    }

    method HIncrBy(id: ClaimId) returns (r: Result<nat>, o: Outcome)
      modifies this`retry
      ensures retry == if o == Lost then old(retry) else old(retry)[id := RetryCount(old(retry), id) + 1]
      ensures r == Answer(o, RetryCount(old(retry), id) + 1)
    {
      o := *;
      r := Answer(o, RetryCount(retry, id) + 1);
      if o != Lost {
        retry := retry[id := RetryCount(retry, id) + 1];
      }
    }

    method HGet(id: ClaimId) returns (r: Result<nat>, o: Outcome)
      ensures r == Answer(o, RetryCount(retry, id))
    {
      o := *;
      r := Answer(o, RetryCount(retry, id));
    }

    method HDel(id: ClaimId) returns (r: Result<()>, o: Outcome)
      modifies this`retry
      ensures retry == if o == Lost then old(retry) else Without(old(retry), id)
      ensures r == Answer(o, ())
    {
      o := *;
      r := Answer(o, ());
      if o != Lost {
        retry := Without(retry, id);
      }
    }
  }

  /** The claims table and the statements the services use, one atomic step each. */
  class ClaimsTable {
    var rows: map<ClaimId, Row>

    constructor ()
      ensures rows == map[]
    {
      rows := map[];
    }

    method Create(id: ClaimId, owner: Text) returns (r: Result<()>, o: Outcome)
      modifies this
      ensures rows == if o == Lost then old(rows) else old(rows)[id := Row(owner, Pending, 0)]
      ensures r == Answer(o, ())
    {
      o := *;
      r := Answer(o, ());
      if o != Lost {
        rows := rows[id := Row(owner, Pending, 0)];
      }
    }

    method Delete(id: ClaimId) returns (r: Result<()>, o: Outcome)
      modifies this
      ensures rows == if o == Lost then old(rows) else Without(old(rows), id)
      ensures r == Answer(o, ())
    {
      o := *;
      r := Answer(o, ());
      if o != Lost {
        rows := Without(rows, id);
      }
    }

    method FindUnique(id: ClaimId) returns (r: Result<Option<Row>>, o: Outcome)
      ensures r == Answer(o, if id in rows then Some(rows[id]) else None)
    {
      o := *;
      r := Answer(o, if id in rows then Some(rows[id]) else None);
    }

    method FindFirst(id: ClaimId, owner: Text) returns (r: Result<Option<Row>>, o: Outcome)
      ensures r == Answer(o, if Owned(rows, id, owner) then Some(rows[id]) else None)
    {
      o := *;
      r := Answer(o, if id in rows && rows[id].owner == owner then Some(rows[id]) else None);
    }

    /** The number of rows updated. */
    method UpdateMany(id: ClaimId, version: nat, status: Status) returns (r: Result<nat>, o: Outcome)
      modifies this
      ensures rows == if o == Lost then old(rows) else CasRows(old(rows), id, version, status)
      ensures r == Answer(o, if Matches(old(rows), id, version) then 1 else 0)
    {
      o := *;
      var matched := id in rows && rows[id].version == version;
      r := Answer(o, if matched then 1 else 0);
      if o != Lost && matched {
        rows := rows[id := rows[id].(status := status, version := version + 1)];
      }
    }
  }

  /** Actions that are not this thread's own steps. */
  predicate Foreign(a: Action, me: Thread) {
    match a
    case Create(i, _, _) => me != CreatorThread(i)
    case KillCreator(i) => me != CreatorThread(i)
    case Work(w, _) => me != WorkerThread(w)
    case KillWorker(w) => me != WorkerThread(w)
    case Update(u, _) => me != UpdaterThread(u)
    case Join(j, _) => me != JoinThread(j)
    case _ => true
  }

  /** What is popped, delivered, drawn or dead-lettered stays so. */
  predicate Grows(s: State, t: State) {
    && s.log.pops <= t.log.pops && s.log.runs <= t.log.runs && s.log.issued.Keys <= t.log.issued.Keys
    && forall id | id in s.db.dlq :: id in t.db.dlq
  }

  lemma GrowsOn(s: State, t: State, u: State)
    requires Grows(s, t) && Grows(t, u)
    ensures Grows(s, u)
  {
  }

  lemma StepGrows(s: State, a: Action)
    ensures Grows(s, Step(s, a))
  {
    if Enabled(s, a) {
      if a.Create? {
        CreateGrows(s, a.creator, a.outcome, a.uuid);
      } else if a.Work? {
        WorkGrows(s, a.worker, a.outcome);
      } else if a.Update? {
        Frames.UpdateFrames(s, a.updater, a.outcome);
      } else {
        Frames.OtherFrames(s, a);
        Frames.OtherLedger(s, a);
      }
    }
  }

  lemma CreateGrows(s: State, i: nat, o: Outcome, uuid: ClaimId)
    requires i < |s.creators|
    ensures Grows(s, CreateStep(s, i, o, uuid))
  {
    Frames.CreateFrames(s, i, o, uuid);
  }

  lemma WorkGrows(s: State, w: nat, o: Outcome)
    requires w < |s.workers|
    ensures Grows(s, WorkStep(s, w, o))
  {
    var x := s.workers[w];
    assert LogAfterWork(s, x, o).issued == s.log.issued && s.log.pops <= LogAfterWork(s, x, o).pops;
    assert s.log.runs <= LogAfterWork(s, x, o).runs;
    assert forall id | id in s.db.dlq :: id in DlqAfterWork(s.db.dlq, x, o);
  }

  /** Time does not run backwards, nothing on record is lost, and this thread stands where it stood;
      a worker may meanwhile have been asked to stop. */
  predicate Undisturbed(s: State, t: State, me: Thread) {
    && t.limit == s.limit && s.db.now <= t.db.now && Grows(s, t) && t.faults.failed[me] == s.faults.failed[me]
    && match me
       case CreatorThread(i) => i < |s.creators| ==> i < |t.creators| && t.creators[i] == s.creators[i]
       case WorkerThread(w) =>
         w < |s.workers| ==>
           w < |t.workers| && t.workers[w].at == s.workers[w].at && t.workers[w].run == s.workers[w].run
       case UpdaterThread(u) => u < |s.updaters| ==> u < |t.updaters| && t.updaters[u] == s.updaters[u]
       case JoinThread(j) => j < |s.joiners| ==> j < |t.joiners| && t.joiners[j] == s.joiners[j]
  }

  lemma UndisturbedStill(s: State, t: State, u: State, me: Thread)
    requires Undisturbed(s, t, me) && Undisturbed(t, u, me) && Remembers(s, t) && Remembers(t, u)
    ensures Undisturbed(s, u, me) && Remembers(s, u)
  {
  }

  lemma OthersUndisturbed(s: State, a: Action, me: Thread)
    requires Foreign(a, me) && Enabled(s, a) && !a.Create? && !a.Work? && !a.Update? && Grows(s, Step(s, a))
    ensures Undisturbed(s, Step(s, a), me)
  {
    Frames.OtherFrames(s, a);
    Frames.OtherLedger(s, a);
  }

  lemma StepsUndisturbed(s: State, a: Action, me: Thread)
    requires Foreign(a, me) && Enabled(s, a) && (a.Create? || a.Work? || a.Update?) && Grows(s, Step(s, a))
    ensures Undisturbed(s, Step(s, a), me)
  {
    ForeignFaults(s, a, me);
    if a.Create? {
      CreateUndisturbed(s, a, me);
    } else if a.Work? {
      WorkUndisturbed(s, a, me);
    } else {
      Frames.UpdateFrames(s, a.updater, a.outcome);
    }
  }

  /** A failing command is held against the thread that issued it only. */
  lemma ForeignFaults(s: State, a: Action, me: Thread)
    requires Foreign(a, me) && Enabled(s, a)
    ensures Step(s, a).faults.failed[me] == s.faults.failed[me]
  {
  }

  lemma CreateUndisturbed(s: State, a: Action, me: Thread)
    requires Foreign(a, me) && Enabled(s, a) && a.Create? && Grows(s, Step(s, a))
    requires Step(s, a).faults.failed[me] == s.faults.failed[me]
    ensures Undisturbed(s, Step(s, a), me)
  {
    Frames.CreateFrames(s, a.creator, a.outcome, a.uuid);
  }

  lemma WorkUndisturbed(s: State, a: Action, me: Thread)
    requires Foreign(a, me) && Enabled(s, a) && a.Work? && Grows(s, Step(s, a))
    requires Step(s, a).faults.failed[me] == s.faults.failed[me]
    ensures Undisturbed(s, Step(s, a), me)
  {
    Frames.WorkFrames(s, a.worker, a.outcome);
  }

  lemma ForeignUndisturbed(s: State, a: Action, me: Thread)
    requires Foreign(a, me)
    ensures Undisturbed(s, Step(s, a), me)
  {
    StepGrows(s, a);
    if Enabled(s, a) {
      if a.Create? || a.Work? || a.Update? {
        StepsUndisturbed(s, a, me);
      } else {
        OthersUndisturbed(s, a, me);
      }
    }
  }

  /** A caller's commands that only read. */
  lemma ReadingChangesNothing(s: State, c: Creator, o: Outcome, uuid: ClaimId)
    requires c.at.Lookup? || c.at.Fetch? || c.at.Poll? || c.at.Measure?
    ensures StoreAfterCreate(s.db, c, o) == s.db
    ensures NextCreator(s, c, o, uuid) == c.(at := NextCreateAt(s, c, o))
  {
  }

  /** The store's content together with every thread's position: always a state that some run of
      the system reaches, whatever code is executing. */
  class ClaimWorld {
    const redis: Redis
    const table: ClaimsTable
    var system: State
    ghost var trace: seq<Action>

    /** The part of the trace up to a moment that a method wants to look back to. */
    ghost var past: seq<Action>

    constructor (limit: nat)
      ensures Valid() && system == Init(limit) && fresh(redis) && fresh(table)
    {
      redis := new Redis();
      table := new ClaimsTable();
      system := Init(limit);
      trace, past := [], [];
    }

    function Content(): Store
      reads this, redis, table
    {
      Store(redis.now, redis.keys, table.rows, redis.markers, redis.payloads, redis.list, redis.dlq, redis.retry)
    }

    ghost predicate Valid()
      reads this, redis, table
    {
      system == Run(Init(system.limit), trace) && system.db == Content() && past <= trace
    }

    /** Where caller `i` of `createClaim`, respectively worker `w`, stands. */
    function Caller(i: nat): CreateAt
      reads this
    {
      if i < |system.creators| then system.creators[i].at else Killed
    }

    function Claim(i: nat): Option<ClaimId>
      reads this
    {
      if i < |system.creators| then system.creators[i].claim else None
    }

    function Doing(w: nat): WorkAt
      reads this
    {
      if w < |system.workers| then system.workers[w].at else Halted
    }

    /** Caller `i` is under way, on this key, in a valid world. */
    ghost predicate Calling(i: nat, key: Key)
      reads this, redis, table
    {
      Valid() && i < |system.creators| && system.creators[i].key == key
    }

    ghost predicate Working(w: nat)
      reads this, redis, table
    {
      Valid() && w < |system.workers|
    }

    /** Between two moments, caller `i` remained the same caller of the same system. */
    twostate predicate SameCaller(i: nat)
      reads this
    {
      && i < |old(system).creators| && i < |system.creators|
      && system.creators[i].identity == old(system).creators[i].identity
      && system.creators[i].part == old(system).creators[i].part
      && system.creators[i].key == old(system).creators[i].key
      && system.limit == old(system).limit && old(system).db.now <= system.db.now && past == old(past)
    }

    /** In between, one command of this thread was reported failed, or none. */
    twostate predicate Faulted(me: Thread, fails: bool)
      reads this
    {
      system.faults.failed[me] == old(system).faults.failed[me] + if fails then 1 else 0
    }

    /** Time does not run backwards, and deliveries stay on record. */
    twostate predicate Later()
      reads this
    {
      old(system).db.now <= system.db.now && |old(system).log.runs| <= |system.log.runs|
    }

    /** A command has been carried out on the store: the thread that issued it moves on. */
    method Record(a: Action)
      requires system == Run(Init(system.limit), trace) && past <= trace
      requires Enabled(system, a) && Step(system, a).db == Content() && Step(system, a).limit == system.limit
      modifies this
      ensures Valid() && system == Step(old(system), a) && past == old(past)
    {
      assert (trace + [a])[..|trace|] == trace;
      system := Step(system, a);
      trace := trace + [a];
    }

    /** The same for the next command of caller `i`, and for that of worker `w`. */
    method RecordCreate(i: nat, o: Outcome, uuid: ClaimId)
      requires system == Run(Init(system.limit), trace) && past <= trace && Enabled(system, Create(i, o, uuid))
      requires Content() == StoreAfterCreate(system.db, system.creators[i], o)
      modifies this
      ensures Valid() && i < |system.creators| && system.limit == old(system.limit) && past == old(past)
      ensures system.db.now == old(system.db.now)
      ensures system.creators[i] == NextCreator(old(system), old(system).creators[i], o, uuid)
      ensures system.log.issued ==
              if old(system).creators[i].at.Arm? && o == Acked then old(system).log.issued[uuid := i]
              else old(system).log.issued
      ensures Faulted(CreatorThread(i), CreateFails(old(system).creators[i], o))
    {
      Record(Create(i, o, uuid));
    }

    method RecordWork(w: nat, o: Outcome)
      requires system == Run(Init(system.limit), trace) && past <= trace && w < |system.workers|
      requires Content() == StoreAfterWork(system, system.workers[w], o)
      modifies this
      ensures Valid() && w < |system.workers| && system.db.now == old(system.db.now)
      ensures system.workers[w] == NextWorker(old(system), old(system).workers[w], o)
      ensures var x, s := old(system).workers[w], old(system);
              && system.log.history == HistoryAfterWork(s, x, o)
              && system.log.retired == s.log.retired + Bag(Retires(s, x, o))
              && system.log.pops == (if Takes(s, x, o) then s.log.pops + [Last(s.db.list)] else s.log.pops)
              && |system.log.runs| == |s.log.runs| + if Delivers(s, x, o) then 1 else 0
      ensures Later() && Faulted(WorkerThread(w), WorkFails(old(system).workers[w], o))
      ensures Grows(old(system), system)
    {
      StepGrows(system, Work(w, o));
      Record(Work(w, o));
    }

    /** The store is brought up to date with steps taken elsewhere. */
    method Reload()
      modifies redis, table
      ensures Content() == system.db
    {
      var db := system.db;
      redis.now, redis.keys, redis.markers, redis.payloads := db.now, db.keys, db.markers, db.payloads;
      redis.list, redis.dlq, redis.retry, table.rows := db.list, db.dlq, db.retry, db.rows;
    }

    /** An `await`: any number of steps of any other threads. */
    method Await(me: Thread)
      requires Valid()
      modifies this, redis, table
      ensures Valid() && Undisturbed(old(system), system, me) && Remembers(old(system), system) && past == old(past)
    {
      var rounds: nat := *;
      while rounds > 0
        invariant system == Run(Init(system.limit), trace) && past <= trace && Undisturbed(old(system), system, me)
        invariant Remembers(old(system), system) && past == old(past)
      {
        var a: Action := *;
        if Foreign(a, me) {
          ghost var before := system;
          Elsewhere(me, a);
          UndisturbedStill(old(system), before, system, me);
        }
        rounds := rounds - 1;
      }
      Reload();
    }

    /** One step of another thread; the store's objects are brought up to date later. */
    method Elsewhere(me: Thread, a: Action)
      requires system == Run(Init(system.limit), trace) && past <= trace && Foreign(a, me)
      modifies this
      ensures system == Run(Init(system.limit), trace) && past <= trace && past == old(past)
      ensures Undisturbed(old(system), system, me) && Remembers(old(system), system)
    {
      ForeignUndisturbed(system, a, me);
      Registry.AlwaysRegistered(system.limit, trace);
      StepRemembers(system, a);
      assert (trace + [a])[..|trace|] == trace;
      system, trace := Step(system, a), trace + [a];
    }

    /** A timer: this much time passes, and then any other threads run before this one does. */
    method Delay(me: Thread, ms: nat)
      requires Valid()
      modifies this, redis, table
      ensures Valid() && Undisturbed(old(system), system, me) && Remembers(old(system), system) && past == old(past)
      ensures system.db.now >= old(system.db.now) + ms
    {
      system, trace := Step(system, Tick(ms)), trace + [Tick(ms)];
      assert trace[..|trace| - 1] == old(trace);
      ghost var later := system;
      Reload();
      Await(me);
      UndisturbedStill(old(system), later, system, me);
    }
  }
}
