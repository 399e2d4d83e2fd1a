/** The claim service as one concurrent system: a shared store and any number of threads,
    each stopped in front of its next `await`. Every external command is one atomic step. */
module ClaimSystem {
  import opened Basics
  import opened IdempotencyKeys
  import opened Lifecycle

  // ---------------------------------------------------------------- the shared store

  datatype Mark = InProgress | Complete(claim: ClaimId)

  /** An idempotency entry; `expires` is absent until a time to live is set. */
  datatype Record = Record(mark: Mark, expires: Option<nat>)

  datatype Payload = Payload(claim: ClaimId, owner: Text, expires: nat)

  datatype Row = Row(owner: Text, status: Status, version: nat)

  datatype Store = Store(
    now: nat,
    keys: map<Key, Record>,
    rows: map<ClaimId, Row>,
    markers: map<ClaimId, Option<nat>>,
    payloads: map<ClaimId, Payload>,
    list: seq<ClaimId>,
    dlq: seq<ClaimId>,
    retry: map<ClaimId, nat>)

  const PENDING_TTL: nat := 60_000
  const COMPLETE_TTL: nat := 24 * 60 * 60 * 1000
  const PAYLOAD_TTL: nat := 24 * 60 * 60 * 1000
  const WAIT_TIMEOUT: nat := 2_000
  const POLL_INTERVAL: nat := 100
  const IDLE_DELAY: nat := 500
  const STAGE_DELAY: nat := 1_000
  const MAX_ATTEMPTS: nat := 3

  // ---------------------------------------------------------------- the threads

  datatype CreateError = Overloaded | Failed | Busy | NotFound | BackendError
  datatype Reply = Created(claim: ClaimId) | Replayed(claim: ClaimId) | Refused(error: CreateError)

  /** Where a `createClaim` call stands, from its first idempotency lookup on. */
  datatype CreateAt =
    | Lookup
    | Fetch(found: ClaimId)
    | Acquire
    | Poll(since: nat)
    | Sleep(since: nat, until: nat)
    | Arm
    | Measure
    | Insert
    | MarkPending
    | MarkTtl
    | StorePayload
    | Push
    | Compensate
    | Finalize
    | Release(cause: CreateError)
    | Replied(reply: Reply)
    | Killed

  datatype Creator = Creator(identity: Text, part: Text, key: Key, claim: Option<ClaimId>, at: CreateAt)

  /** Where a worker's loop stands; a claim named here is the one it is working on. */
  datatype WorkAt =
    | Pop
    | Nap(until: nat)
    | Load(id: ClaimId)
    | Inspect(id: ClaimId)
    | Read(id: ClaimId, stage: Stage)
    | Swap(id: ClaimId, stage: Stage, seen: Status, version: nat)
    | Reread(id: ClaimId, stage: Stage)
    | Pause(id: ClaimId, stage: Stage, until: nat)
    | Count(id: ClaimId)
    | Check(id: ClaimId)
    | Requeue(id: ClaimId)
    | Bury(id: ClaimId)
    | Forget(id: ClaimId)
    | Clear(id: ClaimId, alive: bool)
    | Halted

  /** `run` numbers the delivery this worker started last. */
  datatype Worker = Worker(running: bool, run: nat, at: WorkAt)

  /** Any other caller of `updateClaimStatus`. */
  datatype UpdateAt = Reading | Swapping(seen: Status, version: nat) | Rereading | Updated(ok: bool)
  datatype Updater = Updater(id: ClaimId, target: Status, at: UpdateAt)

  /** An authenticated socket, and a request of one to join a claim's room; a socket can have several
      under way. `Entering` means that ownership has just been confirmed. */
  datatype Socket = Socket(identity: Text, rooms: set<ClaimId>)
  datatype JoinAt = Asking | Entering | Ended(ok: bool)
  datatype Joiner = Joiner(socket: nat, identity: Text, id: ClaimId, at: JoinAt)

  /** The thread that is executing a piece of code. */
  datatype Thread =
    | CreatorThread(creator: nat)
    | WorkerThread(worker: nat)
    | UpdaterThread(updater: nat)
    | JoinThread(joiner: nat)

  // ---------------------------------------------------------------- the ledger

  datatype Author = ByCreator(creator: nat) | ByRun(run: nat) | ByUpdater(updater: nat)
  datatype Change = Change(status: Status, author: Author)

  /** One emitted status event and the sockets that were in the claim's room. */
  datatype Event = Event(status: Status, audience: set<nat>)

  /** What has happened so far, kept for stating properties only: no step's branch reads it
      except to keep identifiers fresh. */
  datatype Ledger = Ledger(
    issued: map<ClaimId, nat>,
    history: map<ClaimId, seq<Change>>,
    events: map<ClaimId, seq<Event>>,
    pushes: seq<ClaimId>,
    pops: seq<ClaimId>,
    added: multiset<ClaimId>,
    redelivered: multiset<ClaimId>,
    retired: multiset<ClaimId>,
    dropped: multiset<ClaimId>,
    unreadable: multiset<ClaimId>,
    runs: seq<ClaimId>,
    lapses: multiset<Key>,
    slipped: set<nat>,
    peak: nat)

  /** How many commands of each thread were reported failed, and the workers that came to an end by an
      exception or by their death; kept like the ledger, and read by no step. */
  datatype Faults = Faults(failed: multiset<Thread>, ended: set<nat>)

  datatype State = State(
    limit: nat,
    db: Store,
    creators: seq<Creator>,
    workers: seq<Worker>,
    updaters: seq<Updater>,
    sockets: seq<Socket>,
    joiners: seq<Joiner>,
    log: Ledger,
    faults: Faults)

  function Init(limit: nat): State {
    State(limit, Store(0, map[], map[], map[], map[], [], [], map[]), [], [], [], [], [],
          Ledger(map[], map[], map[], [], [], multiset{}, multiset{}, multiset{}, multiset{}, multiset{}, [],
                 multiset{}, {}, 0),
          Faults(multiset{}, {}))
  }

  datatype Action =
    | Tick(elapsed: nat)
    | Call(identity: Text, header: Option<Text>, fingerprint: Text)
    | Create(creator: nat, outcome: Outcome, uuid: ClaimId)
    | KillCreator(creator: nat)
    | Boot
    | Work(worker: nat, outcome: Outcome)
    | Stop(worker: nat)
    | KillWorker(worker: nat)
    | Redeliver(id: ClaimId)
    | CallUpdate(id: ClaimId, target: Status)
    | Update(updater: nat, outcome: Outcome)
    | Connect(identity: Text)
    | AskJoin(socket: nat, id: ClaimId)
    | Join(joiner: nat, outcome: Outcome)
    | Disconnect(socket: nat)

  // ---------------------------------------------------------------- store commands

  function CompletedClaim(keys: map<Key, Record>, key: Key): Option<ClaimId> {
    if key in keys && keys[key].mark.Complete? then Some(keys[key].mark.claim) else None
  }

  /** SETNX: nothing happens when the key is there. */
  function SetIfAbsent(keys: map<Key, Record>, key: Key): map<Key, Record> {
    if key in keys then keys else keys[key := Record(InProgress, None)]
  }

  /** PEXPIRE: nothing happens when the key is gone. */
  function ExpireKey(keys: map<Key, Record>, key: Key, at: nat): map<Key, Record> {
    if key in keys then keys[key := keys[key].(expires := Some(at))] else keys
  }

  function Without<K, V>(m: map<K, V>, k: K): map<K, V> {
    map x | x in m && x != k :: m[x]
  }

  /** LPUSH adds at the front; RPOP takes from the back. */
  function LPush(list: seq<ClaimId>, id: ClaimId): seq<ClaimId> {
    [id] + list
  }

  function RetryCount(retry: map<ClaimId, nat>, id: ClaimId): nat {
    if id in retry then retry[id] else 0
  }

  function Bag(token: Option<ClaimId>): multiset<ClaimId> {
    if token.Some? then multiset{token.value} else multiset{}
  }

  predicate Owned(rows: map<ClaimId, Row>, id: ClaimId, identity: Text) {
    id in rows && rows[id].owner == identity
  }

  /** `updateMany` on identifier and version: the rows afterwards. */
  predicate Matches(rows: map<ClaimId, Row>, id: ClaimId, version: nat) {
    id in rows && rows[id].version == version
  }

  function CasRows(rows: map<ClaimId, Row>, id: ClaimId, version: nat, target: Status): map<ClaimId, Row> {
    if Matches(rows, id, version) then rows[id := rows[id].(status := target, version := version + 1)] else rows
  }

  function CasHistory(s: State, id: ClaimId, version: nat, change: Change): map<ClaimId, seq<Change>> {
    if Matches(s.db.rows, id, version) && id in s.log.history
    then s.log.history[id := s.log.history[id] + [change]] else s.log.history
  }

  function Room(sockets: seq<Socket>, id: ClaimId): set<nat> {
    set n | 0 <= n < |sockets| && id in sockets[n].rooms
  }

  /** The event goes to the sockets that are in the claim's room at this moment. */
  function EmitTo(s: State, id: ClaimId, status: Status): map<ClaimId, seq<Event>> {
    if id in s.log.events
    then s.log.events[id := s.log.events[id] + [Event(status, Room(s.sockets, id))]] else s.log.events
  }

  function Noted(failed: multiset<Thread>, me: Thread, fails: bool): multiset<Thread> {
    if fails then failed + multiset{me} else failed
  }

  // ---------------------------------------------------------------- createClaim

  /** Where a caller goes after its next command: the control flow of `createClaim`.
      An idempotency error outside the locked section reaches the client as it is;
      inside, the entry is released first. */
  function NextCreateAt(s: State, c: Creator, o: Outcome): CreateAt {
    var key, db := c.key, s.db;
    var found := CompletedClaim(db.keys, key);
    var failed := Replied(Refused(BackendError));
    match c.at
    case Lookup => if o != Acked then failed else if found.Some? then Fetch(found.value) else Acquire
    case Fetch(id) =>
      if o != Acked then failed
      else if Owned(db.rows, id, c.identity) then Replied(Replayed(id)) else Replied(Refused(NotFound))
    case Acquire => if o != Acked then failed else if key in db.keys then Poll(db.now) else Arm
    case Poll(since) =>
      if o != Acked then failed
      else if found.Some? then Fetch(found.value) else Sleep(since, db.now + POLL_INTERVAL)
    case Sleep(since, until) =>
      if db.now < until then c.at
      else if db.now < since + WAIT_TIMEOUT then Poll(since) else Replied(Refused(Busy))
    case Arm => if o != Acked then failed else Measure
    case Measure =>
      if o != Acked then Release(Failed) else if |db.list| >= s.limit then Release(Overloaded) else Insert
    case Insert => if o != Acked then Release(Failed) else MarkPending
    case MarkPending =>
      if o != Acked then Compensate
      else if c.claim.Some? && c.claim.value in db.markers then Finalize else MarkTtl
    case MarkTtl => if o != Acked then Compensate else StorePayload
    case StorePayload => if o != Acked then Compensate else Push
    case Push => if o != Acked then Compensate else Finalize
    case Compensate => Release(Failed)
    case Finalize =>
      if o != Acked || c.claim.None? then Release(Failed) else Replied(Created(c.claim.value))
    case Release(cause) => if o != Acked then failed else Replied(Refused(cause))
    case Replied(_) => c.at
    case Killed => c.at
  }

  /** The identifier is drawn when the lock's time to live has been set. */
  function NextCreator(s: State, c: Creator, o: Outcome, uuid: ClaimId): Creator {
    c.(at := NextCreateAt(s, c, o), claim := if c.at == Arm && o == Acked then Some(uuid) else c.claim)
  }

  function KeysAfterCreate(db: Store, c: Creator, o: Outcome): map<Key, Record> {
    if o == Lost then db.keys else
    match c.at
    case Acquire => SetIfAbsent(db.keys, c.key)
    case Arm => ExpireKey(db.keys, c.key, db.now + PENDING_TTL)
    case Finalize =>
      if c.claim.None? then db.keys
      else db.keys[c.key := Record(Complete(c.claim.value), Some(db.now + COMPLETE_TTL))]
    case Release(_) => Without(db.keys, c.key)
    case _ => db.keys
  }

  /** The caller's row is inserted, respectively deleted, by this step. */
  predicate Inserts(c: Creator, o: Outcome) {
    c.at == Insert && o != Lost && c.claim.Some?
  }

  predicate Deletes(c: Creator, o: Outcome) {
    c.at == Compensate && o != Lost && c.claim.Some?
  }

  predicate Enqueues(c: Creator, o: Outcome) {
    c.at == Push && o != Lost && c.claim.Some?
  }

  function ListAfterCreate(list: seq<ClaimId>, c: Creator, o: Outcome): seq<ClaimId> {
    if Enqueues(c, o) then LPush(list, c.claim.value) else list
  }

  function RowsAfterCreate(rows: map<ClaimId, Row>, c: Creator, o: Outcome): map<ClaimId, Row> {
    if Inserts(c, o) then rows[c.claim.value := Row(c.identity, Pending, 0)]
    else if Deletes(c, o) then Without(rows, c.claim.value)
    else rows
  }

  function MarkersAfterCreate(db: Store, c: Creator, o: Outcome): map<ClaimId, Option<nat>> {
    if o == Lost || c.claim.None? then db.markers
    else if c.at == MarkPending && c.claim.value !in db.markers then db.markers[c.claim.value := None]
    else if c.at == MarkTtl && c.claim.value in db.markers
    then db.markers[c.claim.value := Some(db.now + PAYLOAD_TTL)]
    else db.markers
  }

  function PayloadsAfterCreate(db: Store, c: Creator, o: Outcome): map<ClaimId, Payload> {
    if c.at == StorePayload && o != Lost && c.claim.Some?
    then db.payloads[c.claim.value := Payload(c.claim.value, c.identity, db.now + PAYLOAD_TTL)]
    else db.payloads
  }

  /** The steps that give the lock up while a claim made under it stays behind: an insert or a
      completion that is reported failed, and a compensating delete that is not done. */
  predicate Slips(c: Creator, o: Outcome) {
    (c.at == Insert && o == Unacked) || (c.at == Compensate && o == Lost) || (c.at == Finalize && o != Acked)
  }

  function PastCheck(at: CreateAt): nat {
    if at in {Insert, MarkPending, MarkTtl, StorePayload, Push} then 1 else 0
  }

  function Checks(creators: seq<Creator>): seq<nat> {
    seq(|creators|, n requires 0 <= n < |creators| => PastCheck(creators[n].at))
  }

  /** How many callers are between the backpressure check and their push. */
  function PastChecks(creators: seq<Creator>): nat {
    Sum(Checks(creators))
  }

  function LogAfterCreate(s: State, i: nat, o: Outcome, creators: seq<Creator>, uuid: ClaimId): Ledger
    requires i < |s.creators|
  {
    var c, log := s.creators[i], s.log;
    log.(
      issued := if c.at == Arm && o == Acked then log.issued[uuid := i] else log.issued,
      history := if Inserts(c, o) then log.history[c.claim.value := [Change(Pending, ByCreator(i))]] else log.history,
      events := if Inserts(c, o) then log.events[c.claim.value := []] else log.events,
      pushes := if Enqueues(c, o) then log.pushes + [c.claim.value] else log.pushes,
      added := if Enqueues(c, o) then log.added + multiset{c.claim.value} else log.added,
      lapses := if Slips(c, o) then log.lapses + multiset{c.key} else log.lapses,
      slipped := if Slips(c, o) then log.slipped + {i} else log.slipped,
      peak := Max(log.peak, PastChecks(creators)))
  }

  /** The store after a command of `createClaim`. */
  function StoreAfterCreate(db: Store, c: Creator, o: Outcome): Store {
    db.(keys := KeysAfterCreate(db, c, o),
        rows := RowsAfterCreate(db.rows, c, o),
        markers := MarkersAfterCreate(db, c, o),
        payloads := PayloadsAfterCreate(db, c, o),
        list := ListAfterCreate(db.list, c, o))
  }

  /** A command of the caller is reported failed; waiting is not a command. */
  predicate CreateFails(c: Creator, o: Outcome) {
    o != Acked && !c.at.Sleep? && !c.at.Replied? && !c.at.Killed?
  }

  function CreateStep(s: State, i: nat, o: Outcome, uuid: ClaimId): State
    requires i < |s.creators|
  {
    var c := s.creators[i];
    var creators := s.creators[i := NextCreator(s, c, o, uuid)];
    s.(creators := creators,
       db := StoreAfterCreate(s.db, c, o),
       log := LogAfterCreate(s, i, o, creators, uuid),
       faults := s.faults.(failed := Noted(s.faults.failed, CreatorThread(i), CreateFails(c, o))))
  }

  // ---------------------------------------------------------------- the worker

  function LoopHead(running: bool): WorkAt {
    if running then Pop else Halted
  }

  /** `getNext` came back with nothing: stop, or wait half a second. */
  function Idle(running: bool, now: nat): WorkAt {
    if running then Nap(now + IDLE_DELAY) else Halted
  }

  function Last(list: seq<ClaimId>): ClaimId
    requires list != []
  {
    list[|list| - 1]
  }

  /** Where a worker goes after its next command: the control flow of `start` and `processClaim`.
      An exception that escapes the loop halts the worker. */
  function NextWorkAt(s: State, x: Worker, o: Outcome): WorkAt {
    var db := s.db;
    match x.at
    case Pop =>
      if o != Acked then Halted else if db.list == [] then Idle(x.running, db.now) else Load(Last(db.list))
    case Nap(until) => if db.now < until then x.at else LoopHead(x.running)
    case Load(id) =>
      if o != Acked then Halted
      else if id !in db.payloads then Idle(x.running, db.now)
      else if !x.running then Halted
      else Inspect(db.payloads[id].claim)
    case Inspect(id) =>
      if o != Acked || id !in db.rows then Count(id)
      else if Terminal(db.rows[id].status) then Clear(id, true)
      else Read(id, 0)
    case Read(id, stage) =>
      if o != Acked || id !in db.rows || !Allowed(db.rows[id].status, Target(id, stage)) then Count(id)
      else Swap(id, stage, db.rows[id].status, db.rows[id].version)
    case Swap(id, stage, _, version) =>
      if o != Acked || !Matches(db.rows, id, version) then Count(id) else Reread(id, stage)
    case Reread(id, stage) =>
      if o != Acked then Count(id)
      else if stage < 2 then Pause(id, stage + 1, db.now + STAGE_DELAY)
      else Clear(id, true)
    case Pause(id, stage, until) => if db.now < until then x.at else Read(id, stage)
    case Count(id) => if o != Acked then Clear(id, false) else Check(id)
    case Check(id) =>
      if o != Acked then Clear(id, false)
      else if RetryCount(db.retry, id) < MAX_ATTEMPTS then Requeue(id)
      else Bury(id)
    case Requeue(id) => Clear(id, o == Acked)
    case Bury(id) => if o != Acked then Clear(id, false) else Forget(id)
    case Forget(id) => Clear(id, o == Acked)
    case Clear(_, alive) => if o == Acked && alive then LoopHead(x.running) else Halted
    case Halted => Halted
  }

  /** A delivery begins. */
  predicate Delivers(s: State, x: Worker, o: Outcome) {
    x.at.Load? && o == Acked && x.running && x.at.id in s.db.payloads
  }

  /** The token's payload is gone; `getNext` answers as if the list had been empty. */
  predicate MissesPayload(s: State, x: Worker, o: Outcome) {
    x.at.Load? && o == Acked && x.at.id !in s.db.payloads
  }

  function NextWorker(s: State, x: Worker, o: Outcome): Worker {
    x.(at := NextWorkAt(s, x, o), run := if Delivers(s, x, o) then |s.log.runs| else x.run)
  }

  predicate Takes(s: State, x: Worker, o: Outcome) {
    x.at.Pop? && o != Lost && s.db.list != []
  }

  predicate PutsBack(x: Worker, o: Outcome) {
    x.at.Requeue? && o != Lost
  }

  function ListAfterWork(s: State, x: Worker, o: Outcome): seq<ClaimId> {
    if Takes(s, x, o) then s.db.list[..|s.db.list| - 1]
    else if PutsBack(x, o) then LPush(s.db.list, x.at.id)
    else s.db.list
  }

  function DlqAfterWork(dlq: seq<ClaimId>, x: Worker, o: Outcome): seq<ClaimId> {
    if x.at.Bury? && o != Lost then LPush(dlq, x.at.id) else dlq
  }

  function MarkersAfterWork(markers: map<ClaimId, Option<nat>>, x: Worker, o: Outcome): map<ClaimId, Option<nat>> {
    if x.at.Clear? && o != Lost then Without(markers, x.at.id) else markers
  }

  function RetryAfterWork(retry: map<ClaimId, nat>, x: Worker, o: Outcome): map<ClaimId, nat> {
    if x.at.Count? && o != Lost then retry[x.at.id := RetryCount(retry, x.at.id) + 1]
    else if x.at.Forget? && o != Lost then Without(retry, x.at.id)
    else retry
  }

  function RowsAfterWork(rows: map<ClaimId, Row>, x: Worker, o: Outcome): map<ClaimId, Row> {
    if x.at.Swap? && o != Lost then CasRows(rows, x.at.id, x.at.version, Target(x.at.id, x.at.stage)) else rows
  }

  function HistoryAfterWork(s: State, x: Worker, o: Outcome): map<ClaimId, seq<Change>> {
    if x.at.Swap? && o != Lost
    then CasHistory(s, x.at.id, x.at.version, Change(Target(x.at.id, x.at.stage), ByRun(x.run)))
    else s.log.history
  }

  /** The token has served its purpose: its claim was found terminal, or its last event is out. */
  function Retires(s: State, x: Worker, o: Outcome): Option<ClaimId> {
    match x.at
    case Inspect(id) =>
      if o == Acked && id in s.db.rows && Terminal(s.db.rows[id].status) then Some(id) else None
    case Reread(id, stage) => if o == Acked && stage == 2 then Some(id) else None
    case _ => None
  }

  /** The token is lost: popped but not reported, without a payload, met by a stop,
      or its retry bookkeeping failed. */
  function Drops(s: State, x: Worker, o: Outcome): Option<ClaimId> {
    match x.at
    case Pop => if o == Unacked && s.db.list != [] then Some(Last(s.db.list)) else None
    case Load(id) => if Delivers(s, x, o) then None else Some(id)
    case Count(id) => if o != Acked then Some(id) else None
    case Check(id) => if o != Acked then Some(id) else None
    case Requeue(id) => if o == Lost then Some(id) else None
    case Bury(id) => if o == Lost then Some(id) else None
    case _ => None
  }

  function LogAfterWork(s: State, x: Worker, o: Outcome): Ledger {
    var log := s.log;
    log.(
      history := HistoryAfterWork(s, x, o),
      events := if x.at.Reread? && o == Acked then EmitTo(s, x.at.id, Target(x.at.id, x.at.stage)) else log.events,
      pushes := if PutsBack(x, o) then log.pushes + [x.at.id] else log.pushes,
      pops := if Takes(s, x, o) then log.pops + [Last(s.db.list)] else log.pops,
      retired := log.retired + Bag(Retires(s, x, o)),
      dropped := log.dropped + Bag(Drops(s, x, o)),
      unreadable := if MissesPayload(s, x, o) then log.unreadable + multiset{x.at.id} else log.unreadable,
      runs := if Delivers(s, x, o) then log.runs + [s.db.payloads[x.at.id].claim] else log.runs)
  }

  /** The store after a command of a worker. */
  function StoreAfterWork(s: State, x: Worker, o: Outcome): Store {
    s.db.(rows := RowsAfterWork(s.db.rows, x, o),
          markers := MarkersAfterWork(s.db.markers, x, o),
          list := ListAfterWork(s, x, o),
          dlq := DlqAfterWork(s.db.dlq, x, o),
          retry := RetryAfterWork(s.db.retry, x, o))
  }

  predicate WorkFails(x: Worker, o: Outcome) {
    o != Acked && !x.at.Nap? && !x.at.Pause? && !x.at.Halted?
  }

  /** The failure is an exception that nothing catches: outside the try block of a delivery. */
  predicate Escapes(x: Worker, o: Outcome) {
    WorkFails(x, o) && !x.at.Inspect? && !x.at.Read? && !x.at.Swap? && !x.at.Reread?
  }

  function FaultsAfterWork(f: Faults, w: nat, x: Worker, o: Outcome): Faults {
    Faults(Noted(f.failed, WorkerThread(w), WorkFails(x, o)), if Escapes(x, o) then f.ended + {w} else f.ended)
  }

  function WorkStep(s: State, w: nat, o: Outcome): State
    requires w < |s.workers|
  {
    var x := s.workers[w];
    s.(workers := s.workers[w := NextWorker(s, x, o)],
       db := StoreAfterWork(s, x, o),
       log := LogAfterWork(s, x, o),
       faults := FaultsAfterWork(s.faults, w, x, o))
  }

  /** The token a worker is answerable for. */
  function Token(at: WorkAt): Option<ClaimId> {
    match at
    case Load(id) => Some(id)
    case Inspect(id) => Some(id)
    case Read(id, _) => Some(id)
    case Swap(id, _, _, _) => Some(id)
    case Reread(id, _) => Some(id)
    case Pause(id, _, _) => Some(id)
    case Count(id) => Some(id)
    case Check(id) => Some(id)
    case Requeue(id) => Some(id)
    case Bury(id) => Some(id)
    case _ => None
  }

  /** The process dies; whatever token the worker held is gone with it. */
  function KillWorkerStep(s: State, w: nat): State
    requires w < |s.workers|
  {
    s.(workers := s.workers[w := s.workers[w].(at := Halted)],
       log := s.log.(dropped := s.log.dropped + Bag(Token(s.workers[w].at))),
       faults := s.faults.(ended := s.faults.ended + {w}))
  }

  // ---------------------------------------------------------------- other callers, sockets, time

  function NextUpdateAt(db: Store, x: Updater, o: Outcome): UpdateAt {
    match x.at
    case Reading =>
      if o != Acked || x.id !in db.rows || !Allowed(db.rows[x.id].status, x.target) then Updated(false)
      else Swapping(db.rows[x.id].status, db.rows[x.id].version)
    case Swapping(_, version) =>
      if o != Acked || !Matches(db.rows, x.id, version) then Updated(false) else Rereading
    case Rereading => Updated(o == Acked)
    case Updated(_) => x.at
  }

  function UpdateStep(s: State, u: nat, o: Outcome): State
    requires u < |s.updaters|
  {
    var x := s.updaters[u];
    var swaps := x.at.Swapping? && o != Lost;
    s.(updaters := s.updaters[u := x.(at := NextUpdateAt(s.db, x, o))],
       db := s.db.(rows := if swaps then CasRows(s.db.rows, x.id, x.at.version, x.target) else s.db.rows),
       log := s.log.(
         history := if swaps then CasHistory(s, x.id, x.at.version, Change(x.target, ByUpdater(u)))
                    else s.log.history,
         events := if x.at.Rereading? && o == Acked then EmitTo(s, x.id, x.target) else s.log.events),
       faults := s.faults.(failed := Noted(s.faults.failed, UpdaterThread(u), o != Acked && !x.at.Updated?)))
  }

  /** `join-claim-room`: ownership is checked by one read, then the socket joins. */
  function NextJoinAt(db: Store, x: Joiner, o: Outcome): JoinAt {
    match x.at
    case Asking => if o == Acked && Owned(db.rows, x.id, x.identity) then Entering else Ended(false)
    case Entering => Ended(o == Acked)
    case Ended(_) => x.at
  }

  function SocketsAfterJoin(sockets: seq<Socket>, x: Joiner, o: Outcome): seq<Socket> {
    if x.at.Entering? && o != Lost && x.socket < |sockets|
    then sockets[x.socket := sockets[x.socket].(rooms := sockets[x.socket].rooms + {x.id})] else sockets
  }

  function JoinStep(s: State, j: nat, o: Outcome): State
    requires j < |s.joiners|
  {
    var x := s.joiners[j];
    s.(joiners := s.joiners[j := x.(at := NextJoinAt(s.db, x, o))],
       sockets := SocketsAfterJoin(s.sockets, x, o),
       faults := s.faults.(failed := Noted(s.faults.failed, JoinThread(j), o != Acked && !x.at.Ended?)))
  }

  /** Time passes; entries whose time to live has run out disappear, and each such
      idempotency entry is a lapse. */
  function TickStep(s: State, elapsed: nat): State {
    var now := s.db.now + elapsed;
    var gone := set k | k in s.db.keys && !Alive(s.db.keys[k].expires, now);
    s.(db := s.db.(
         now := now,
         keys := map k | k in s.db.keys && Alive(s.db.keys[k].expires, now) :: s.db.keys[k],
         markers := map c | c in s.db.markers && Alive(s.db.markers[c], now) :: s.db.markers[c],
         payloads := map c | c in s.db.payloads && now < s.db.payloads[c].expires :: s.db.payloads[c]),
       log := s.log.(lapses := s.log.lapses + multiset(gone)))
  }

  function CallStep(s: State, identity: Text, header: Option<Text>, fingerprint: Text): State {
    var part := Part(header, fingerprint);
    s.(creators := s.creators + [Creator(identity, part, KeyFor(identity, part), None, Lookup)])
  }

  function RedeliverStep(s: State, id: ClaimId): State {
    s.(db := s.db.(list := LPush(s.db.list, id)),
       log := s.log.(pushes := s.log.pushes + [id], redelivered := s.log.redelivered + multiset{id}))
  }

  /** Identifiers are drawn fresh. */
  predicate Enabled(s: State, a: Action) {
    match a
    case Create(i, o, uuid) =>
      i < |s.creators| && (s.creators[i].at.Arm? && o == Acked ==> uuid !in s.log.issued)
    case KillCreator(i) => i < |s.creators| && !s.creators[i].at.Replied?
    case Work(w, _) => w < |s.workers|
    case Stop(w) => w < |s.workers|
    case KillWorker(w) => w < |s.workers|
    case Update(u, _) => u < |s.updaters|
    case AskJoin(n, _) => n < |s.sockets|
    case Join(j, _) => j < |s.joiners|
    case Disconnect(n) => n < |s.sockets|
    case _ => true
  }

  /** One step of the whole system; an action that is not enabled changes nothing. */
  function Step(s: State, a: Action): State {
    if !Enabled(s, a) then s else
    match a
    case Tick(elapsed) => TickStep(s, elapsed)
    case Call(identity, header, fingerprint) => CallStep(s, identity, header, fingerprint)
    case Create(i, o, uuid) => CreateStep(s, i, o, uuid)
    case KillCreator(i) => s.(creators := s.creators[i := s.creators[i].(at := Killed)])
    case Boot => s.(workers := s.workers + [Worker(true, 0, Pop)])
    case Work(w, o) => WorkStep(s, w, o)
    case Stop(w) => s.(workers := s.workers[w := s.workers[w].(running := false)])
    case KillWorker(w) => KillWorkerStep(s, w)
    case Redeliver(id) => RedeliverStep(s, id)
    case CallUpdate(id, target) => s.(updaters := s.updaters + [Updater(id, target, Reading)])
    case Update(u, o) => UpdateStep(s, u, o)
    case Connect(identity) => s.(sockets := s.sockets + [Socket(identity, {})])
    case AskJoin(n, id) => s.(joiners := s.joiners + [Joiner(n, s.sockets[n].identity, id, Asking)])
    case Join(j, o) => JoinStep(s, j, o)
    case Disconnect(n) => s.(sockets := s.sockets[n := s.sockets[n].(rooms := {})])
  }

  /** A whole run: the actions in order, the last one taken last. */
  function Run(s: State, actions: seq<Action>): State {
    if actions == [] then s else Step(Run(s, actions[..|actions| - 1]), actions[|actions| - 1])
  }

  /** Some run of the system, from its empty initial state, leads here. */
  ghost predicate Reachable(s: State) {
    exists limit, actions :: s == Run(Init(limit), actions)
  }
}
