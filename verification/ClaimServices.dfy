/** `ClaimService`: creating, reading and updating claims. */
module ClaimServices {
  import opened Basics
  import opened IdempotencyKeys
  import opened Lifecycle
  import opened ClaimSystem
  import opened World
  import Frames
  import opened Registry
  import opened Replies
  import Refusals
  import Rooms
  import Answers
  import FaultReports
  import Accounting
  import Runs
  import opened History
  import IdempotencyService
  import QueueService
  import RateLimitService

  /** What a client gets: a refusal by the throttle, or the answer of a started creation. */
  datatype CreateAnswer = Throttled | ThrottleUnavailable | Answered(reply: Reply)

  /** The thread whose next command is this ownership check. */
  ghost predicate AsksFor(s: State, me: Thread, id: ClaimId, identity: Text) {
    match me
    case CreatorThread(i) => i < |s.creators| && s.creators[i].at == Fetch(id) && s.creators[i].identity == identity
    case JoinThread(j) => j < |s.joiners| && s.joiners[j] == Joiner(s.joiners[j].socket, identity, id, Asking)
    case _ => false
  }

  function FetchAction(me: Thread, o: Outcome): Action {
    match me
    case CreatorThread(i) => Create(i, o, ClaimId([]))
    case JoinThread(j) => Join(j, o)
    case _ => Tick(0)
  }

  /** Where the check leaves its thread. */
  ghost predicate Fetched(before: State, s: State, me: Thread, id: ClaimId, r: Result<Option<Row>>) {
    match me
    case CreatorThread(i) =>
      i < |s.creators| && s.creators[i].at == (match r
        case Error => Replied(Refused(BackendError))
        case Done(None) => Replied(Refused(NotFound))
        case Done(Some(_)) => Replied(Replayed(id)))
    case JoinThread(j) =>
      j < |before.joiners| && j < |s.joiners|
      && s.joiners[j] == before.joiners[j].(at := if r.Done? && r.value.Some? then Entering else Ended(false))
    case _ => false
  }

  lemma FetchLeads(s: State, me: Thread, id: ClaimId, identity: Text, o: Outcome)
    requires AsksFor(s, me, id, identity)
    ensures var a := FetchAction(me, o);
            && Enabled(s, a) && Step(s, a).db == s.db && Step(s, a).limit == s.limit
            && Fetched(s, Step(s, a), me, id,
                       Answer(o, if Owned(s.db.rows, id, identity) then Some(s.db.rows[id]) else None))
    ensures Step(s, FetchAction(me, o)).faults.failed[me] == s.faults.failed[me] + if o != Acked then 1 else 0
  {
    match me
    case CreatorThread(i) => ReadingChangesNothing(s, s.creators[i], o, ClaimId([]));
    case JoinThread(j) =>
  }

  function UpdateAction(me: Thread, o: Outcome): Action {
    match me
    case WorkerThread(w) => Work(w, o)
    case UpdaterThread(u) => Update(u, o)
    case _ => Tick(0)
  }

  /** In whose name this thread's changes are recorded. */
  function AuthorOf(s: State, me: Thread): Author {
    match me
    case WorkerThread(w) => ByRun(if w < |s.workers| then s.workers[w].run else 0)
    case UpdaterThread(u) => ByUpdater(u)
    case _ => ByUpdater(0)
  }

  /** An update of one claim to one status; `stage` is the worker's, and without meaning for others. */
  datatype Job = Job(me: Thread, id: ClaimId, target: Status, stage: Stage)

  /** The job's next command is its first read, its compare-and-set, its second read. */
  ghost predicate Reads(s: State, j: Job) {
    match j.me
    case WorkerThread(w) =>
      w < |s.workers| && s.workers[w].at == Read(j.id, j.stage) && j.target == Target(j.id, j.stage)
    case UpdaterThread(u) => u < |s.updaters| && s.updaters[u] == Updater(j.id, j.target, Reading)
    case _ => false
  }

  ghost predicate Swaps(s: State, j: Job, seen: Status, version: nat) {
    match j.me
    case WorkerThread(w) =>
      w < |s.workers| && s.workers[w].at == Swap(j.id, j.stage, seen, version) && j.target == Target(j.id, j.stage)
    case UpdaterThread(u) => u < |s.updaters| && s.updaters[u] == Updater(j.id, j.target, Swapping(seen, version))
    case _ => false
  }

  ghost predicate Rereads(s: State, j: Job) {
    match j.me
    case WorkerThread(w) =>
      w < |s.workers| && s.workers[w].at == Reread(j.id, j.stage) && j.target == Target(j.id, j.stage)
    case UpdaterThread(u) => u < |s.updaters| && s.updaters[u] == Updater(j.id, j.target, Rereading)
    case _ => false
  }

  function AfterUpdate(id: ClaimId, stage: Stage, now: nat, ok: bool): WorkAt {
    if !ok then Count(id) else if stage < 2 then Pause(id, stage + 1, now + STAGE_DELAY) else Clear(id, true)
  }

  /** The job is over: a worker pauses before its next stage, or has finished the claim and retired it. */
  ghost predicate Over(s: State, j: Job, ok: bool) {
    match j.me
    case WorkerThread(w) =>
      w < |s.workers|
      && s.workers[w].at == AfterUpdate(j.id, j.stage, s.db.now, ok)
      && (ok && j.stage == 2 ==> j.id in s.log.retired)
    case UpdaterThread(u) => u < |s.updaters| && s.updaters[u] == Updater(j.id, j.target, Updated(ok))
    case _ => false
  }

  predicate OnRecord(history: map<ClaimId, seq<Change>>, id: ClaimId, change: Change) {
    id in history && change in history[id]
  }

  lemma RecordStays(s: State, t: State, id: ClaimId, change: Change)
    requires OnRecord(s.log.history, id, change) && Remembers(s, t)
    ensures OnRecord(t.log.history, id, change)
  {
    var n :| 0 <= n < |s.log.history[id]| && s.log.history[id][n] == change;
    assert t.log.history[id][n] == change;
  }

  lemma CasAppends(s: State, id: ClaimId, version: nat, change: Change)
    requires RowsOwned(s) && Matches(s.db.rows, id, version)
    ensures OnRecord(CasHistory(s, id, version, change), id, change)
  {
    assert CasHistory(s, id, version, change)[id][|s.log.history[id]|] == change;
  }

  /** Where each of the three commands of an update leads. */
  lemma ReadLeads(s: State, j: Job, o: Outcome)
    requires Reads(s, j)
    ensures var t := Step(s, UpdateAction(j.me, o));
            && Enabled(s, UpdateAction(j.me, o)) && t.db == s.db && t.limit == s.limit
            && t.log.history == s.log.history
            && AuthorOf(t, j.me) == AuthorOf(s, j.me)
            && if o == Acked && j.id in s.db.rows && Allowed(s.db.rows[j.id].status, j.target)
               then Swaps(t, j, s.db.rows[j.id].status, s.db.rows[j.id].version) else Over(t, j, false)
  {
    match j.me
    case WorkerThread(w) =>
      Frames.WorkFrames(s, w, o);
      WorkerReadLeads(s, s.workers[w], o);
    case UpdaterThread(u) => Frames.UpdateFrames(s, u, o);
  }

  lemma WorkerReadLeads(s: State, x: Worker, o: Outcome)
    requires x.at.Read?
    ensures var id, stage, rows := x.at.id, x.at.stage, s.db.rows;
            && StoreAfterWork(s, x, o) == s.db && HistoryAfterWork(s, x, o) == s.log.history
            && NextWorker(s, x, o).run == x.run
            && NextWorkAt(s, x, o) ==
               if o == Acked && id in rows && Allowed(rows[id].status, Target(id, stage))
               then Swap(id, stage, rows[id].status, rows[id].version) else Count(id)
  {
  }

  lemma WorkerSwapLeads(s: State, x: Worker, o: Outcome)
    requires x.at.Swap?
    ensures NextWorkAt(s, x, o) ==
            if o == Acked && Matches(s.db.rows, x.at.id, x.at.version) then Reread(x.at.id, x.at.stage)
            else Count(x.at.id)
  {
  }

  lemma SwapLeads(s: State, j: Job, seen: Status, version: nat, o: Outcome)
    requires Swaps(s, j, seen, version)
    ensures if o == Acked && Matches(s.db.rows, j.id, version) then Rereads(Step(s, UpdateAction(j.me, o)), j)
            else Over(Step(s, UpdateAction(j.me, o)), j, false)
    ensures AuthorOf(Step(s, UpdateAction(j.me, o)), j.me) == AuthorOf(s, j.me)
  {
    match j.me
    case WorkerThread(w) =>
      WorkerSwapLeads(s, s.workers[w], o);
      assert WorkStep(s, w, o).workers[w].at == NextWorkAt(s, s.workers[w], o);
    case UpdaterThread(u) =>
  }

  lemma WorkerRereadLeads(s: State, x: Worker, o: Outcome)
    requires x.at.Reread?
    ensures var id, stage := x.at.id, x.at.stage;
            && StoreAfterWork(s, x, o) == s.db && HistoryAfterWork(s, x, o) == s.log.history
            && NextWorker(s, x, o) == x.(at := AfterUpdate(id, stage, s.db.now, o == Acked))
            && (o == Acked && stage == 2 ==> id in LogAfterWork(s, x, o).retired)
  {
  }

  lemma RereadLeads(s: State, j: Job, o: Outcome)
    requires Rereads(s, j)
    ensures var t := Step(s, UpdateAction(j.me, o));
            && Enabled(s, UpdateAction(j.me, o)) && t.db == s.db && t.limit == s.limit
            && t.log.history == s.log.history && AuthorOf(t, j.me) == AuthorOf(s, j.me)
    ensures Over(Step(s, UpdateAction(j.me, o)), j, o == Acked)
  {
    match j.me
    case WorkerThread(w) =>
      WorkerRereadLeads(s, s.workers[w], o);
      Frames.WorkFrames(s, w, o);
    case UpdaterThread(u) => Frames.UpdateFrames(s, u, o);
  }

  lemma WorkerSwapIsRecorded(s: State, w: nat, o: Outcome)
    requires RowsOwned(s) && w < |s.workers| && s.workers[w].at.Swap? && o != Lost
    requires Matches(s.db.rows, s.workers[w].at.id, s.workers[w].at.version)
    ensures var x := s.workers[w];
            OnRecord(HistoryAfterWork(s, x, o), x.at.id, Change(Target(x.at.id, x.at.stage), ByRun(x.run)))
  {
    var x := s.workers[w];
    CasAppends(s, x.at.id, x.at.version, Change(Target(x.at.id, x.at.stage), ByRun(x.run)));
  }

  lemma UpdaterSwapIsRecorded(s: State, u: nat, o: Outcome)
    requires RowsOwned(s) && u < |s.updaters| && s.updaters[u].at.Swapping? && o != Lost
    requires Matches(s.db.rows, s.updaters[u].id, s.updaters[u].at.version)
    ensures var x := s.updaters[u];
            OnRecord(UpdateStep(s, u, o).log.history, x.id, Change(x.target, ByUpdater(u)))
  {
    var x := s.updaters[u];
    CasAppends(s, x.id, x.at.version, Change(x.target, ByUpdater(u)));
  }

  /** A compare-and-set that finds its version puts the change on record, in its thread's name. */
  lemma SwapIsRecorded(s: State, j: Job, seen: Status, version: nat, o: Outcome)
    requires RowsOwned(s) && Swaps(s, j, seen, version) && o != Lost && Matches(s.db.rows, j.id, version)
    ensures OnRecord(Step(s, UpdateAction(j.me, o)).log.history, j.id, Change(j.target, AuthorOf(s, j.me)))
  {
    match j.me
    case WorkerThread(w) => WorkerSwapIsRecorded(s, w, o);
    case UpdaterThread(u) => UpdaterSwapIsRecorded(s, u, o);
  }

  lemma WorkerSwapStores(s: State, w: nat, o: Outcome)
    requires w < |s.workers| && s.workers[w].at.Swap?
    ensures var x, t := s.workers[w], WorkStep(s, w, o);
            && t.limit == s.limit
            && t.db == s.db.(rows := if o == Lost then s.db.rows
                                     else CasRows(s.db.rows, x.at.id, x.at.version, Target(x.at.id, x.at.stage)))
  {
  }

  lemma SwapStores(s: State, j: Job, seen: Status, version: nat, o: Outcome)
    requires Swaps(s, j, seen, version)
    ensures var a := UpdateAction(j.me, o);
            && Enabled(s, a) && Step(s, a).limit == s.limit
            && Step(s, a).db ==
               s.db.(rows := if o == Lost then s.db.rows else CasRows(s.db.rows, j.id, version, j.target))
  {
    match j.me
    case WorkerThread(w) => WorkerSwapStores(s, w, o);
    case UpdaterThread(u) => Frames.UpdateFrames(s, u, o);
  }

  /** What a compare-and-set has achieved once it is carried out, given the answer it got. */
  lemma SwapAchieves(s: State, j: Job, seen: Status, version: nat, o: Outcome, count: Result<nat>)
    requires Registered(s) && Swaps(s, j, seen, version)
    requires count == Answer(o, if Matches(s.db.rows, j.id, version) then 1 else 0)
    ensures var t := Step(s, UpdateAction(j.me, o));
            && Remembers(s, t) && AuthorOf(t, j.me) == AuthorOf(s, j.me)
            && if count.Error? || count.value == 0 then Over(t, j, false)
               else Rereads(t, j) && OnRecord(t.log.history, j.id, Change(j.target, AuthorOf(s, j.me)))
  {
    StepRemembers(s, UpdateAction(j.me, o));
    SwapLeads(s, j, seen, version, o);
    if o == Acked && Matches(s.db.rows, j.id, version) {
      SwapIsRecorded(s, j, seen, version, o);
    }
  }

  /** The last event of the claim, sent to its room as it is now. */
  predicate Announced(s: State, id: ClaimId, status: Status) {
    id in s.log.events && s.log.events[id] != []
    && var last := s.log.events[id][|s.log.events[id]| - 1];
       last.status == status && Rooms.ReachesRoom(s.sockets, id, last.audience)
  }

  lemma EmitAnnounces(s: State, t: State, id: ClaimId, status: Status)
    requires t.log.events == EmitTo(s, id, status) && t.sockets == s.sockets && id in s.log.events
    ensures Announced(t, id, status)
  {
  }

  lemma EmissionIsAnnounced(s: State, j: Job, o: Outcome)
    requires RowsOwned(s) && Rereads(s, j) && o == Acked && j.id in s.log.history
    ensures Announced(Step(s, UpdateAction(j.me, o)), j.id, j.target)
  {
    match j.me
    case WorkerThread(w) =>
      Frames.WorkFrames(s, w, o);
      EmitAnnounces(s, WorkStep(s, w, o), j.id, j.target);
    case UpdaterThread(u) =>
      Frames.UpdateFrames(s, u, o);
      EmitAnnounces(s, UpdateStep(s, u, o), j.id, j.target);
  }

  /** A failing command of an update is held against its thread; what is on record stays. */
  lemma UpdateFaults(s: State, j: Job, seen: Status, version: nat, o: Outcome)
    requires Reads(s, j) || Rereads(s, j) || Swaps(s, j, seen, version)
    ensures var t := Step(s, UpdateAction(j.me, o));
            && t.faults.failed[j.me] == s.faults.failed[j.me] + (if o != Acked then 1 else 0)
            && |s.log.runs| <= |t.log.runs| && s.db.now <= t.db.now
  {
    match j.me
    case WorkerThread(w) => WorkerFaults(s, w, o);
    case UpdaterThread(u) => UpdaterFaults(s, u, o);
  }

  lemma UpdaterFaults(s: State, u: nat, o: Outcome)
    requires u < |s.updaters| && !s.updaters[u].at.Updated?
    ensures var t := UpdateStep(s, u, o);
            && t.faults.failed[UpdaterThread(u)] == s.faults.failed[UpdaterThread(u)] + (if o != Acked then 1 else 0)
            && t.log.runs == s.log.runs && t.db.now == s.db.now
  {
  }

  lemma WorkerFaults(s: State, w: nat, o: Outcome)
    requires w < |s.workers| && (s.workers[w].at.Read? || s.workers[w].at.Swap? || s.workers[w].at.Reread?)
    ensures var t := WorkStep(s, w, o);
            && t.faults.failed[WorkerThread(w)] == s.faults.failed[WorkerThread(w)] + (if o != Acked then 1 else 0)
            && |s.log.runs| <= |t.log.runs| && t.db.now == s.db.now
  {
  }

  /** Somebody has changed the claim's status in between. */
  predicate MovedOn(s: State, t: State, id: ClaimId) {
    id in t.log.history && (id in s.log.history ==> |s.log.history[id]| < |t.log.history[id]|)
  }

  /** A stale version means that. */
  lemma StaleMeansMovedOn(b: State, s: State, front: seq<Action>, t: State, trace: seq<Action>, id: ClaimId,
                          version: nat)
    requires s == Run(Init(s.limit), front) && t == Run(Init(t.limit), trace) && Remembers(b, s) && Remembers(s, t)
    requires Matches(s.db.rows, id, version)
    ensures id in t.db.rows && !Matches(t.db.rows, id, version) ==> MovedOn(b, t, id)
  {
    AlwaysRegistered(s.limit, front);
    AlwaysChronicled(s.limit, front, id);
    AlwaysChronicled(t.limit, trace, id);
  }

  /** What a caller may rely on when it was told of a claim. */
  ghost predicate Truthful(s: State, k: Key, identity: Text, told: Option<ClaimId>) {
    told.Some? ==>
      && Lasting(s, told.value, k)
      && Owned(s.db.rows, told.value, identity)
      && (s.log.lapses[k] == 0 ==>
            && Cell(s, k) == told
            && forall n | 0 <= n < |s.creators| && s.creators[n].key == k && Told(s.creators[n].at).Some? ::
                 Told(s.creators[n].at) == told)
  }

  lemma RepliesAreTruthful(s: State, actions: seq<Action>, i: nat)
    requires s == Run(Init(s.limit), actions) && i < |s.creators|
    ensures Truthful(s, s.creators[i].key, s.creators[i].identity, Told(s.creators[i].at))
  {
    var c := s.creators[i];
    AlwaysSound(s.limit, actions);
    Registry.AlwaysRegistered(s.limit, actions);
    AlwaysAgreed(s.limit, actions, c.key);
    if Told(c.at).Some? {
      assert Lasting(s, Told(c.at).value, c.key);
      NobodyIsToldOfAnothersClaim(s, i);
    }
  }

  /** "Failed" and a backend error are due to a failing command of this call, and such a one leads to them; the
      caller's own claim is always found when identities are free of colons. */
  predicate WithReason(s: State, i: nat, reply: Reply) {
    && (s.faults.failed[CreatorThread(i)] > 0 <==> reply in {Refused(Failed), Refused(BackendError)})
    && (reply == Refused(NotFound) ==> !IdentitiesColonFree(s))
  }

  /** A call that came to a complete entry, nobody being in the key's locked section, and that no command of its own has
      failed, is answered with the entry's claim if that is its own, unless the key has lapsed meanwhile. */
  ghost predicate ReplaysEntry(b: State, s: State, k: Key, i: nat, reply: Reply) {
    k in b.db.keys && b.db.keys[k].mark.Complete? && Accounting.NobodyInside(b, k) && s.log.lapses[k] == b.log.lapses[k]
    && i < |s.creators| && s.faults.failed[CreatorThread(i)] == 0
    ==> reply == Answers.EntryAnswer(s, b.db.keys[k].mark.claim, s.creators[i].identity)
  }

  lemma AnswersAccount(b: State, front: seq<Action>, s: State, trace: seq<Action>, k: Key, i: nat)
    requires b == Run(Init(b.limit), front) && s == Run(Init(s.limit), trace) && front <= trace && b.limit == s.limit
    requires |b.creators| <= i < |s.creators| && s.creators[i].key == k && s.creators[i].at.Replied?
    ensures WithReason(s, i, s.creators[i].at.reply) && ReplaysEntry(b, s, k, i, s.creators[i].at.reply)
  {
    FaultReports.RefusedForAReason(s, i);
    assert trace == front + trace[|front|..];
    Runs.RunConcat(Init(b.limit), front, trace[|front|..]);
    if k in b.db.keys && b.db.keys[k].mark.Complete? && Accounting.NobodyInside(b, k)
       && s.log.lapses[k] == b.log.lapses[k] && s.faults.failed[CreatorThread(i)] == 0 {
      Answers.AnsweredWithTheEntry(b, trace[|front|..], s, k, b.db.keys[k].mark.claim, i);
    }
  }

  class ClaimService {
    const world: ClaimWorld
    const queue: QueueService.RedisQueueService
    const idempotency: IdempotencyService.ClaimIdempotencyService
    const rateLimit: RateLimitService.ClaimRateLimitService

    constructor (world: ClaimWorld, rateLimit: RateLimitService.ClaimRateLimitService)
      ensures this.world == world && this.rateLimit == rateLimit && queue.world == world && idempotency.world == world
    {
      this.world := world;
      this.rateLimit := rateLimit;
      this.queue := new QueueService.RedisQueueService(world);
      this.idempotency := new IdempotencyService.ClaimIdempotencyService(world);
    }

    ghost predicate Valid()
      reads world, world.redis, world.table, rateLimit
    {
      queue.world == world && idempotency.world == world && world.Valid() && rateLimit.Valid()
    }

    // -------------------------------------------------------------- reading

    /** The claim, if it exists and belongs to this identity. */
    method GetClaim(me: Thread, id: ClaimId, identity: Text) returns (r: Result<Option<Row>>)
      requires world.Valid() && AsksFor(world.system, me, id, identity)
      modifies world, world.redis, world.table
      ensures world.Valid() && Fetched(old(world.system), world.system, me, id, r)
      ensures me.CreatorThread? ==> world.SameCaller(me.creator)
      ensures world.Faulted(me, r.Error?)
      ensures r.Done? ==>
                (r.value.Some? <==> id in world.table.rows && world.table.rows[id].owner == identity)
      ensures r.Done? && r.value.Some? ==> r.value.value == world.table.rows[id]
    {
      world.Await(me);
      var o;
      r, o := world.table.FindFirst(id, identity);
      FetchLeads(world.system, me, id, identity, o);
      world.Record(FetchAction(me, o));
    }

    // -------------------------------------------------------------- updating

    /** Read, validate, compare-and-set on the version, read again, emit. Success means that this
        thread's change of status is on the claim's record; the exceptions are a missing row,
        a transition that is not allowed, a version that has moved on, and a failing command. */
    method UpdateClaimStatus(ghost j: Job, me: Thread, id: ClaimId, nextStatus: Status) returns (r: Result<()>)
      requires j == Job(me, id, nextStatus, j.stage) && world.Valid() && Reads(world.system, j)
      modifies world, world.redis, world.table
      ensures world.Valid() && Over(world.system, j, r.Done?) && Remembers(old(world.system), world.system)
      ensures AuthorOf(world.system, me) == AuthorOf(old(world.system), me)
      ensures r.Done? ==> OnRecord(world.system.log.history, id, Change(nextStatus, AuthorOf(old(world.system), me)))
                          && Announced(world.system, id, nextStatus)
      ensures world.Later() && (world.Faulted(me, false) || (world.Faulted(me, true) && r.Error?))
      ensures r.Error? && world.Faulted(me, false) ==>
                || id !in world.table.rows || !Allowed(world.table.rows[id].status, nextStatus)
                || MovedOn(old(world.system), world.system, id)
    {
      var current := Validate(j, me, id, nextStatus);
      if current.Error? {
        return Error;
      }
      ghost var read, front := world.system, world.trace;
      r := ApplyUpdate(j, me, id, nextStatus, current.value.status, current.value.version);
      StaleMeansMovedOn(old(world.system), read, front, world.system, world.trace, id, current.value.version);
    }

    /** The first read, and the transition validated against the status it shows. */
    method Validate(ghost j: Job, me: Thread, id: ClaimId, nextStatus: Status) returns (r: Result<Row>)
      requires j == Job(me, id, nextStatus, j.stage) && world.Valid() && Reads(world.system, j)
      modifies world, world.redis, world.table
      ensures world.Valid() && Remembers(old(world.system), world.system) && world.Later()
      ensures AuthorOf(world.system, me) == AuthorOf(old(world.system), me)
      ensures r.Done? ==> Swaps(world.system, j, r.value.status, r.value.version)
                          && Matches(world.table.rows, id, r.value.version) && world.Faulted(me, false)
      ensures r.Error? ==> Over(world.system, j, false)
      ensures r.Error? ==> world.Faulted(me, true)
                           || (world.Faulted(me, false)
                               && (id !in world.table.rows || !Allowed(world.table.rows[id].status, nextStatus)))
    {
      world.Await(me);
      ghost var before := world.system;
      var current, o := world.table.FindUnique(id);
      ReadLeads(before, j, o);
      UpdateFaults(before, j, Pending, 0, o);
      world.Record(UpdateAction(me, o));
      r := if current.Error? || current.value.None? || !Allowed(current.value.value.status, nextStatus) then Error
           else Done(current.value.value);
    }

    method ApplyUpdate(ghost j: Job, me: Thread, id: ClaimId, nextStatus: Status, ghost seen: Status, version: nat)
      returns (r: Result<()>)
      requires j == Job(me, id, nextStatus, j.stage) && world.Valid() && Swaps(world.system, j, seen, version)
      modifies world, world.redis, world.table
      ensures world.Valid() && Over(world.system, j, r.Done?) && Remembers(old(world.system), world.system)
      ensures AuthorOf(world.system, me) == AuthorOf(old(world.system), me)
      ensures r.Done? ==> OnRecord(world.system.log.history, id, Change(nextStatus, AuthorOf(old(world.system), me)))
                          && Announced(world.system, id, nextStatus)
      ensures world.Later() && (world.Faulted(me, false) || (world.Faulted(me, true) && r.Error?))
      ensures r.Error? && world.Faulted(me, false) ==> !Matches(world.table.rows, id, version)
    {
      var count := CompareAndSet(j, me, id, nextStatus, seen, version);
      if count.Error? || count.value == 0 {
        return Error;
      }
      ghost var swapped := world.system;
      r := Announce(j, me, id, nextStatus);
      RecordStays(swapped, world.system, id, Change(nextStatus, AuthorOf(old(world.system), me)));
    }

    method CompareAndSet(ghost j: Job, me: Thread, id: ClaimId, nextStatus: Status, ghost seen: Status, version: nat)
      returns (count: Result<nat>)
      requires j == Job(me, id, nextStatus, j.stage) && world.Valid() && Swaps(world.system, j, seen, version)
      modifies world, world.redis, world.table
      ensures world.Valid() && Remembers(old(world.system), world.system)
      ensures AuthorOf(world.system, me) == AuthorOf(old(world.system), me)
      ensures if count.Error? || count.value == 0 then Over(world.system, j, false)
              else Rereads(world.system, j)
                   && OnRecord(world.system.log.history, id, Change(nextStatus, AuthorOf(old(world.system), me)))
      ensures world.Later() && world.Faulted(me, count.Error?)
      ensures count == Done(0) ==> !Matches(world.table.rows, id, version)
    {
      world.Await(me);
      AlwaysRegistered(world.system.limit, world.trace);
      ghost var before := world.system;
      var o;
      count, o := world.table.UpdateMany(id, version, nextStatus);
      SwapStores(before, j, seen, version, o);
      UpdateFaults(before, j, seen, version, o);
      world.Record(UpdateAction(me, o));
      SwapAchieves(before, j, seen, version, o, count);
    }

    /** The second read; the event goes out only when it succeeds. */
    method Announce(ghost j: Job, me: Thread, id: ClaimId, nextStatus: Status) returns (r: Result<()>)
      requires j == Job(me, id, nextStatus, j.stage) && world.Valid() && Rereads(world.system, j)
      modifies world, world.redis, world.table
      ensures world.Valid() && Over(world.system, j, r.Done?) && Remembers(old(world.system), world.system)
      ensures AuthorOf(world.system, me) == AuthorOf(old(world.system), me)
      ensures r.Done? && id in old(world.system).log.history ==> Announced(world.system, id, nextStatus)
      ensures world.Later() && world.Faulted(me, r.Error?)
    {
      world.Await(me);
      AlwaysRegistered(world.system.limit, world.trace);
      ghost var before := world.system;
      var newClaim, o := world.table.FindUnique(id);
      RereadLeads(before, j, o);
      UpdateFaults(before, j, Pending, 0, o);
      world.Record(UpdateAction(me, o));
      r := if newClaim.Done? then Done(()) else Error;
      if o == Acked && id in before.log.history {
        EmissionIsAnnounced(before, j, o);
      }
    }

    // -------------------------------------------------------------- creating

    /** Replays, refuses or creates: the caller's entry decides. A successful answer names an
        existing claim created under this key and owned by the caller; and while the key has not lapsed,
        it is the one claim every caller is told. */
    method CreateClaim(identity: Text, header: Option<Text>, fingerprint: Text)
      returns (answer: CreateAnswer, ghost attempt: nat, ghost i: nat)
      requires Valid()
      modifies world, world.redis, world.table, rateLimit
      ensures Valid()
      ensures attempt == |old(rateLimit.system.attempts)| < |rateLimit.system.attempts|
      ensures rateLimit.system.attempts[attempt].slot.identity == identity
      ensures answer == Throttled <==> rateLimit.At(attempt).Limited?
      ensures answer.Answered? <==> rateLimit.At(attempt).Passed?
      ensures !answer.Answered? ==> world.system == old(world.system)
      ensures answer.Answered? ==>
                && i == |old(world.system).creators| < |world.system.creators|
                && world.Caller(i) == Replied(answer.reply)
                && world.system.creators[i].identity == identity
                && world.system.creators[i].key == BuildKey(identity, header, fingerprint)
                && Truthful(world.system, BuildKey(identity, header, fingerprint), identity,
                    Told(Replied(answer.reply)))
      ensures answer.Answered? && answer.reply.Refused? ==>
                (Refusals.LeavesRow(world.system, i) <==> i in world.system.log.slipped)
      ensures answer.Answered? ==>
                && WithReason(world.system, i, answer.reply)
                && ReplaysEntry(old(world.system), world.system, BuildKey(identity, header, fingerprint), i,
                                answer.reply)
                && (answer.reply == Refused(Busy) ==> world.system.db.now >= old(world.system.db.now) + 2_000)
    {
      world.past := world.trace;
      ghost var before := world.system;
      var admission, n := rateLimit.AssertCreateAllowed(identity);
      attempt, i := n, |world.system.creators|;
      if admission != RateLimitService.Admitted {
        answer := if admission == RateLimitService.TooMany then Throttled else ThrottleUnavailable;
        return;
      }
      var key := BuildKey(identity, header, fingerprint);
      var c := |world.system.creators|;
      world.Record(Call(identity, header, fingerprint));
      var reply := AnswerCall(c, key, identity);
      answer := Answered(reply);
      RepliesAreTruthful(world.system, world.trace, c);
      AnswersAccount(before, world.past, world.system, world.trace, key, c);
      if reply.Refused? {
        Refusals.RefusedExactlyWithoutClaim(world.system, c);
      }
    }

    /** The idempotency entry: look, and if need be try for the lock. */
    method AnswerCall(i: nat, key: Key, identity: Text) returns (reply: Reply)
      requires queue.world == world && idempotency.world == world
      requires world.Calling(i, key) && world.Caller(i) == Lookup && world.system.creators[i].identity == identity
      modifies world, world.redis, world.table
      ensures world.Calling(i, key) && world.SameCaller(i) && world.Caller(i) == Replied(reply)
      ensures reply == Refused(Busy) ==> world.system.db.now >= old(world.system.db.now) + 2_000
    {
      var existing := idempotency.ClaimExistingClaimId(i, key);
      if existing.Error? {
        return Refused(BackendError);
      }
      if existing.value.Some? {
        reply := Replay(i, key, identity, existing.value.value);
        return;
      }
      var lock, claimId := idempotency.AcquirePendingLock(i, key);
      if lock.Error? {
        return Refused(BackendError);
      }
      if lock.value {
        reply := CreateLocked(i, key, identity, claimId);
      } else {
        reply := AwaitOther(i, key, identity);
      }
    }

    method Replay(i: nat, key: Key, identity: Text, id: ClaimId) returns (reply: Reply)
      requires world.Calling(i, key) && world.Caller(i) == Fetch(id) && world.system.creators[i].identity == identity
      modifies world, world.redis, world.table
      ensures world.Calling(i, key) && world.SameCaller(i) && world.Caller(i) == Replied(reply)
      ensures reply in {Replayed(id), Refused(NotFound), Refused(BackendError)}
      ensures world.Faulted(CreatorThread(i), reply == Refused(BackendError))
      ensures reply == Replayed(id) ==> id in world.table.rows && world.table.rows[id].owner == identity
      ensures reply == Refused(NotFound) ==> !(id in world.table.rows && world.table.rows[id].owner == identity)
    {
      var claim := GetClaim(CreatorThread(i), id, identity);
      reply := match claim
               case Error => Refused(BackendError)
               case Done(None) => Refused(NotFound)
               case Done(Some(_)) => Replayed(id);
    }

    method AwaitOther(i: nat, key: Key, identity: Text) returns (reply: Reply)
      requires idempotency.world == world && world.Calling(i, key) && world.Caller(i).Poll?
      requires world.Caller(i).since == world.system.db.now && world.system.creators[i].identity == identity
      modifies world, world.redis, world.table
      ensures world.Calling(i, key) && world.SameCaller(i) && world.Caller(i) == Replied(reply)
      ensures reply == Refused(Busy) ==> world.system.db.now >= old(world.system.db.now) + 2_000
    {
      var completed := idempotency.WaitForCompletion(i, key);
      if completed.Error? {
        reply := Refused(BackendError);
      } else if completed.value.Some? {
        reply := Replay(i, key, identity, completed.value.value);
      } else {
        reply := Refused(Busy);
      }
    }

    /** Inside the locked section, every exception releases the entry before it reaches the client. */
    method CreateLocked(i: nat, key: Key, identity: Text, claimId: ClaimId) returns (reply: Reply)
      requires queue.world == world && idempotency.world == world
      requires world.Calling(i, key) && world.Caller(i) == Measure && world.Claim(i) == Some(claimId)
      requires world.system.creators[i].identity == identity
      modifies world, world.redis, world.table
      ensures world.Calling(i, key) && world.SameCaller(i) && world.Caller(i) == Replied(reply)
      ensures reply == Created(claimId) || (reply.Refused? && reply.error != Busy)
      ensures reply.Refused? && reply.error != BackendError ==> key !in world.redis.keys
    {
      var r, cause := TryCreate(i, key, identity, claimId);
      if r.Done? {
        reply := Created(claimId);
      } else {
        var released := idempotency.Release(i, key);
        reply := Refused(if released.Done? then cause else BackendError);
      }
    }

    /** The body of the try block. */
    method TryCreate(i: nat, key: Key, identity: Text, claimId: ClaimId) returns (r: Result<()>, cause: CreateError)
      requires queue.world == world && idempotency.world == world
      requires world.Calling(i, key) && world.Caller(i) == Measure && world.Claim(i) == Some(claimId)
      requires world.system.creators[i].identity == identity
      modifies world, world.redis, world.table
      ensures world.Calling(i, key) && world.SameCaller(i)
      ensures world.Caller(i) == if r.Done? then Replied(Created(claimId)) else Release(cause)
      ensures r.Error? ==> cause == Failed || (cause == Overloaded && |world.redis.list| >= world.system.limit)
    {
      r, cause := Error, Failed;
      var size := queue.QueueSize(i, key);
      if size.Error? {
        return;
      }
      if size.value >= world.system.limit {
        cause := Overloaded;
        return;
      }
      var inserted := InsertRow(i, key, identity, claimId);
      if inserted.Error? {
        return;
      }
      var added := queue.Add(i, key, claimId, identity);
      if added.Error? {
        DeleteRow(i, key, claimId);
        return;
      }
      r := idempotency.Finalize(i, key, claimId);
    }

    method InsertRow(i: nat, key: Key, identity: Text, claimId: ClaimId) returns (r: Result<()>)
      requires world.Calling(i, key) && world.Caller(i) == Insert && world.Claim(i) == Some(claimId)
      requires world.system.creators[i].identity == identity
      modifies world, world.redis, world.table
      ensures world.Calling(i, key) && world.SameCaller(i) && world.Claim(i) == Some(claimId)
      ensures world.Caller(i) == if r.Done? then MarkPending else Release(Failed)
      ensures r.Done? ==> claimId in world.table.rows && world.table.rows[claimId] == Row(identity, Pending, 0)
    {
      world.Await(CreatorThread(i));
      var o;
      r, o := world.table.Create(claimId, identity);
      world.RecordCreate(i, o, ClaimId([]));
    }

    /** The compensating delete; whether or not it succeeds, the entry is released next. */
    method DeleteRow(i: nat, key: Key, claimId: ClaimId)
      requires world.Calling(i, key) && world.Caller(i) == Compensate && world.Claim(i) == Some(claimId)
      modifies world, world.redis, world.table
      ensures world.Calling(i, key) && world.SameCaller(i) && world.Caller(i) == Release(Failed)
    {
      world.Await(CreatorThread(i));
      var r, o := world.table.Delete(claimId);
      world.RecordCreate(i, o, ClaimId([]));
    }
  }
}
