/** Who hears about a claim: room membership and event delivery. */
module Rooms {
  import opened Basics
  import opened IdempotencyKeys
  import opened Lifecycle
  import opened ClaimSystem
  import Frames
  import Registry
  import Runs

  /** The claim was created by this identity, whether or not its row still exists. */
  predicate CreatedBy(s: State, id: ClaimId, identity: Text) {
    && id in s.log.issued && s.log.issued[id] < |s.creators|
    && s.creators[s.log.issued[id]].identity == identity
  }

  /** A socket is only in rooms of claims its identity created. */
  predicate SocketCleared(s: State, x: Socket) {
    forall id | id in x.rooms :: CreatedBy(s, id, x.identity)
  }

  /** A request runs in its socket's name, and is let in only to claims of that identity. */
  predicate JoinerCleared(s: State, x: Joiner) {
    && x.socket < |s.sockets| && x.identity == s.sockets[x.socket].identity
    && (x.at.Entering? ==> CreatedBy(s, x.id, x.identity))
  }

  predicate Cleared(s: State) {
    && (forall n | 0 <= n < |s.sockets| :: SocketCleared(s, s.sockets[n]))
    && (forall j | 0 <= j < |s.joiners| :: JoinerCleared(s, s.joiners[j]))
  }

  predicate HeardByOwner(s: State, id: ClaimId, event: Event) {
    forall n | n in event.audience :: n < |s.sockets| && CreatedBy(s, id, s.sockets[n].identity)
  }

  /** Every event of this claim went to sockets of the identity that created it. */
  predicate Private(s: State, id: ClaimId) {
    id in s.log.events ==>
      forall n | 0 <= n < |s.log.events[id]| :: HeardByOwner(s, id, s.log.events[id][n])
  }

  /** Identities and creators never change, so what was cleared stays cleared. */
  predicate Continues(s: State, t: State) {
    && |s.creators| <= |t.creators| && |s.sockets| <= |t.sockets|
    && (forall n | 0 <= n < |s.creators| :: t.creators[n].identity == s.creators[n].identity)
    && (forall n | 0 <= n < |s.sockets| :: t.sockets[n].identity == s.sockets[n].identity)
    && (forall id | id in s.log.issued :: id in t.log.issued && t.log.issued[id] == s.log.issued[id])
  }

  lemma OtherContinues(s: State, a: Action)
    requires Enabled(s, a) && !a.Create? && !a.Work? && !a.Update?
    ensures Continues(s, Step(s, a))
  {
    Frames.OtherFrames(s, a);
  }

  lemma StepContinues(s: State, a: Action)
    ensures Continues(s, Step(s, a))
  {
    if Enabled(s, a) {
      if a.Create? {
        CreateContinues(s, a.creator, a.outcome, a.uuid);
      } else if a.Work? {
        Frames.WorkFrames(s, a.worker, a.outcome);
      } else if a.Update? {
        Frames.UpdateFrames(s, a.updater, a.outcome);
      } else {
        OtherContinues(s, a);
      }
    }
  }

  lemma CreateContinues(s: State, i: nat, o: Outcome, uuid: ClaimId)
    requires Enabled(s, Create(i, o, uuid))
    ensures Continues(s, CreateStep(s, i, o, uuid))
  {
    Frames.CreateFrames(s, i, o, uuid);
  }

  lemma SocketContinues(s: State, t: State, x: Socket)
    requires SocketCleared(s, x) && Continues(s, t)
    ensures SocketCleared(t, x)
  {
  }

  lemma JoinerContinues(s: State, t: State, x: Joiner)
    requires JoinerCleared(s, x) && Continues(s, t)
    ensures JoinerCleared(t, x)
  {
  }

  /** Steps that leave sockets and requests alone. */
  lemma QuietCleared(s: State, t: State)
    requires Cleared(s) && Continues(s, t) && t.sockets == s.sockets && t.joiners == s.joiners
    ensures Cleared(t)
  {
    forall n | 0 <= n < |t.sockets| ensures SocketCleared(t, t.sockets[n]) {
      SocketContinues(s, t, s.sockets[n]);
    }
    forall j | 0 <= j < |t.joiners| ensures JoinerCleared(t, t.joiners[j]) {
      JoinerContinues(s, t, s.joiners[j]);
    }
  }

  /** A request's own step clears it only after reading a row of its identity. */
  lemma AskingClears(s: State, x: Joiner, o: Outcome)
    requires Registry.Registered(s) && JoinerCleared(s, x)
    ensures JoinerCleared(s, x.(at := NextJoinAt(s.db, x, o)))
  {
  }

  lemma JoinClears(s: State, j: nat, o: Outcome)
    requires Registry.Registered(s) && Cleared(s) && j < |s.joiners|
    ensures Cleared(JoinStep(s, j, o))
  {
    var x, t := s.joiners[j], JoinStep(s, j, o);
    AskingClears(s, x, o);
    forall n | 0 <= n < |t.sockets| ensures SocketCleared(t, t.sockets[n]) {
      assert SocketCleared(s, s.sockets[n]) && JoinerCleared(s, x);
    }
    forall n | 0 <= n < |t.joiners| ensures JoinerCleared(t, t.joiners[n]) {
      assert n != j ==> JoinerCleared(s, s.joiners[n]);
    }
  }

  /** A socket connects or disconnects, or sends a request. */
  lemma SocketClears(s: State, a: Action)
    requires Cleared(s) && Enabled(s, a) && (a.Connect? || a.Disconnect? || a.AskJoin?)
    ensures Cleared(Step(s, a))
  {
    var t := Step(s, a);
    forall n | 0 <= n < |t.sockets| ensures SocketCleared(t, t.sockets[n]) {
      assert n < |s.sockets| ==> SocketCleared(s, s.sockets[n]);
    }
    forall j | 0 <= j < |t.joiners| ensures JoinerCleared(t, t.joiners[j]) {
      assert j < |s.joiners| ==> JoinerCleared(s, s.joiners[j]);
    }
  }

  lemma StepCleared(s: State, a: Action)
    requires Registry.Registered(s) && Cleared(s)
    ensures Cleared(Step(s, a))
  {
    if Enabled(s, a) {
      if a.Join? {
        JoinClears(s, a.joiner, a.outcome);
      } else if a.Connect? || a.Disconnect? || a.AskJoin? {
        SocketClears(s, a);
      } else {
        StepContinues(s, a);
        SocketsUntouched(s, a);
        QuietCleared(s, Step(s, a));
      }
    }
  }

  lemma SocketsUntouched(s: State, a: Action)
    requires Enabled(s, a) && !a.Join? && !a.Connect? && !a.Disconnect? && !a.AskJoin?
    ensures Step(s, a).sockets == s.sockets && Step(s, a).joiners == s.joiners
  {
    match a
    case Create(i, o, uuid) => Frames.CreateFrames(s, i, o, uuid);
    case Work(w, o) => Frames.WorkFrames(s, w, o);
    case Update(u, o) => Frames.UpdateFrames(s, u, o);
    case _ =>
  }

  /** An event that is emitted now reaches only cleared sockets. */
  lemma EmissionIsPrivate(s: State, id: ClaimId, status: Status)
    requires Cleared(s)
    ensures HeardByOwner(s, id, Event(status, Room(s.sockets, id)))
  {
    forall n | n in Room(s.sockets, id) ensures CreatedBy(s, id, s.sockets[n].identity) {
      assert SocketCleared(s, s.sockets[n]);
    }
  }

  lemma HeardContinues(s: State, t: State, id: ClaimId, event: Event)
    requires HeardByOwner(s, id, event) && Continues(s, t)
    ensures HeardByOwner(t, id, event)
  {
  }

  /** A step leaves a claim's events alone, starts them empty, or adds one to the room as it is. */
  lemma EventsGrow(s: State, a: Action, id: ClaimId)
    requires id in Step(s, a).log.events
    ensures var ev := Step(s, a).log.events[id];
            || ev == []
            || (id in s.log.events && ev == s.log.events[id])
            || (id in s.log.events && exists status :: ev == s.log.events[id] + [Event(status, Room(s.sockets, id))])
  {
    if Enabled(s, a) {
      match a
      case Create(i, o, uuid) =>
      case Work(w, o) => WorkEventsGrow(s, s.workers[w], o, id);
      case Update(u, o) => EmitGrows(s, s.updaters[u].id, s.updaters[u].target, id);
      case _ =>
    }
  }

  lemma EmitGrows(s: State, to: ClaimId, status: Status, id: ClaimId)
    requires id in EmitTo(s, to, status)
    ensures id in s.log.events
    ensures EmitTo(s, to, status)[id] == s.log.events[id]
            || EmitTo(s, to, status)[id] == s.log.events[id] + [Event(status, Room(s.sockets, id))]
  {
  }

  lemma WorkEventsGrow(s: State, x: Worker, o: Outcome, id: ClaimId)
    requires id in LogAfterWork(s, x, o).events
    ensures var ev := LogAfterWork(s, x, o).events[id];
            id in s.log.events
            && (ev == s.log.events[id]
                || exists status :: ev == s.log.events[id] + [Event(status, Room(s.sockets, id))])
  {
    if x.at.Reread? && o == Acked {
      EmitGrows(s, x.at.id, Target(x.at.id, x.at.stage), id);
    }
  }

  lemma StepPrivate(s: State, a: Action, id: ClaimId)
    requires Cleared(s) && Private(s, id)
    ensures Private(Step(s, a), id)
  {
    var t := Step(s, a);
    if id in t.log.events {
      EventsGrow(s, a, id);
      StepContinues(s, a);
      forall n | 0 <= n < |t.log.events[id]| ensures HeardByOwner(t, id, t.log.events[id][n]) {
        var event := t.log.events[id][n];
        if id !in s.log.events || n >= |s.log.events[id]| || event != s.log.events[id][n] {
          EmissionIsPrivate(s, id, event.status);
        }
        HeardContinues(s, t, id, event);
      }
    }
  }

  lemma {:induction false} AlwaysCleared(limit: nat, actions: seq<Action>)
    ensures Cleared(Run(Init(limit), actions))
  {
    if actions != [] {
      var front := actions[..|actions| - 1];
      AlwaysCleared(limit, front);
      Registry.AlwaysRegistered(limit, front);
      StepCleared(Run(Init(limit), front), actions[|actions| - 1]);
    }
  }

  /** In every reachable state, across joins, disconnects, creates, compensating deletes and status
      changes: rooms hold only their claim's creator, and every event was heard by nobody else. */
  lemma {:induction false} EventsReachOnlyTheOwner(limit: nat, actions: seq<Action>, id: ClaimId)
    ensures Cleared(Run(Init(limit), actions)) && Private(Run(Init(limit), actions), id)
  {
    AlwaysCleared(limit, actions);
    if actions != [] {
      var front := actions[..|actions| - 1];
      EventsReachOnlyTheOwner(limit, front, id);
      StepPrivate(Run(Init(limit), front), actions[|actions| - 1], id);
    }
  }

  // ---------------------------------------------------------------- delivery is complete

  /** These are just the sockets that are in the claim's room. */
  predicate ReachesRoom(sockets: seq<Socket>, id: ClaimId, audience: set<nat>) {
    && (forall n | n in audience :: n < |sockets| && id in sockets[n].rooms)
    && (forall n | 0 <= n < |sockets| && id in sockets[n].rooms :: n in audience)
  }

  /** A worker's successful second read, and an updater's, put exactly one event on record: the new status,
      heard by every socket that is in the claim's room at that moment, and by no other. */
  lemma WorkerIsHeard(s: State, w: nat, id: ClaimId, stage: Stage)
    requires w < |s.workers| && s.workers[w].at == Reread(id, stage) && id in s.log.events
    ensures var ev, t := s.log.events[id], Step(s, Work(w, Acked));
            && id in t.log.events && |t.log.events[id]| == |ev| + 1 && t.log.events[id][..|ev|] == ev
            && t.log.events[id][|ev|].status == (if stage == 0 then Processing
                                                 else if stage == 1 then FraudChecking else Decision(id))
            && ReachesRoom(s.sockets, id, t.log.events[id][|ev|].audience) && t.sockets == s.sockets
  {
    Frames.WorkFrames(s, w, Acked);
  }

  lemma UpdaterIsHeard(s: State, u: nat)
    requires u < |s.updaters| && s.updaters[u].at.Rereading? && s.updaters[u].id in s.log.events
    ensures var id, ev, t := s.updaters[u].id, s.log.events[s.updaters[u].id], Step(s, Update(u, Acked));
            && id in t.log.events && |t.log.events[id]| == |ev| + 1 && t.log.events[id][..|ev|] == ev
            && t.log.events[id][|ev|].status == s.updaters[u].target
            && ReachesRoom(s.sockets, id, t.log.events[id][|ev|].audience) && t.sockets == s.sockets
  {
    Frames.UpdateFrames(s, u, Acked);
  }

  /** The events that are new reached everybody in the room. */
  predicate HeardSince(s: State, t: State, n: nat, id: ClaimId)
    requires id in s.log.events
  {
    && n < |t.sockets| && id in t.sockets[n].rooms && id in t.log.events && s.log.events[id] <= t.log.events[id]
    && forall m | |s.log.events[id]| <= m < |t.log.events[id]| :: n in t.log.events[id][m].audience
  }

  lemma MemberStays(s: State, a: Action, n: nat, id: ClaimId)
    requires n < |s.sockets| && id in s.sockets[n].rooms && a != Disconnect(n)
    ensures n < |Step(s, a).sockets| && id in Step(s, a).sockets[n].rooms
  {
    if Enabled(s, a) && !a.Join? && !a.Connect? && !a.Disconnect? && !a.AskJoin? {
      SocketsUntouched(s, a);
    }
  }

  lemma CreateKeepsEvents(s: State, i: nat, o: Outcome, uuid: ClaimId, id: ClaimId)
    requires Registry.Registered(s) && id in s.log.events && i < |s.creators|
    ensures var ev := CreateStep(s, i, o, uuid).log.events; id in ev && ev[id] == s.log.events[id]
  {
    assert Registry.Placed(s, s.creators[i]);
    assert Inserts(s.creators[i], o) ==> s.creators[i].claim != Some(id);
  }

  lemma EmitKeeps(s: State, to: ClaimId, status: Status, id: ClaimId)
    requires id in s.log.events
    ensures id in EmitTo(s, to, status) && s.log.events[id] <= EmitTo(s, to, status)[id]
  {
  }

  lemma WorkKeepsEvents(s: State, w: nat, o: Outcome, id: ClaimId)
    requires id in s.log.events && w < |s.workers|
    ensures var ev := WorkStep(s, w, o).log.events; id in ev && s.log.events[id] <= ev[id]
  {
  }

  /** Whatever is on record is there to stay: identifiers are drawn once, so nothing is started anew. */
  lemma EventsStay(s: State, a: Action, id: ClaimId)
    requires Registry.Registered(s) && id in s.log.events
    ensures id in Step(s, a).log.events && s.log.events[id] <= Step(s, a).log.events[id]
  {
    if Enabled(s, a) {
      match a
      case Create(i, o, uuid) => CreateKeepsEvents(s, i, o, uuid, id);
      case Work(w, o) => WorkKeepsEvents(s, w, o, id);
      case Update(u, o) => EmitKeeps(s, s.updaters[u].id, s.updaters[u].target, id);
      case _ => Frames.OtherFrames(s, a);
    }
  }

  lemma StepIsHeard(b: State, s: State, a: Action, n: nat, id: ClaimId)
    requires Registry.Registered(s) && id in b.log.events && HeardSince(b, s, n, id) && a != Disconnect(n)
    ensures HeardSince(b, Step(s, a), n, id)
  {
    MemberStays(s, a, n, id);
    EventsStay(s, a, id);
    EventsGrow(s, a, id);
    MemberHears(b, s, Step(s, a), n, id);
  }

  lemma MemberHears(b: State, s: State, t: State, n: nat, id: ClaimId)
    requires id in b.log.events && HeardSince(b, s, n, id) && n < |t.sockets| && id in t.sockets[n].rooms
    requires id in t.log.events && s.log.events[id] <= t.log.events[id]
    requires var ev := t.log.events[id];
             || ev == s.log.events[id]
             || ev == []
             || exists status :: ev == s.log.events[id] + [Event(status, Room(s.sockets, id))]
    ensures HeardSince(b, t, n, id)
  {
  }

  /** A socket that has joined a claim's room hears every later event of the claim, in every continuation in
      which it stays connected. */
  lemma {:induction false} MembersHearEverything(s: State, more: seq<Action>, n: nat, id: ClaimId)
    requires Reachable(s) && n < |s.sockets| && id in s.sockets[n].rooms && id in s.log.events
    requires Disconnect(n) !in more
    ensures HeardSince(s, Run(s, more), n, id)
  {
    if more != [] {
      var front, a := more[..|more| - 1], more[|more| - 1];
      MembersHearEverything(s, front, n, id);
      Runs.ReachesOn(s, front);
      Registry.ReachableRegistered(Run(s, front));
      StepIsHeard(s, Run(s, front), a, n, id);
    }
  }

  /** A socket that disconnects leaves all its rooms, and no other socket leaves any. */
  lemma DisconnectLeaves(s: State, n: nat)
    requires n < |s.sockets|
    ensures var t := Step(s, Disconnect(n));
            && |t.sockets| == |s.sockets| && t.sockets[n] == Socket(s.sockets[n].identity, {})
            && forall m | 0 <= m < |s.sockets| && m != n :: t.sockets[m] == s.sockets[m]
  {
  }

  // ---------------------------------------------------------------- who gets in

  /** A request whose two commands succeed gets its socket into the room if and only if the claim's row
      belongs to the socket's identity at the check; no other socket and no other room is concerned. */
  lemma OwnerGetsIn(s: State, j: nat)
    requires j < |s.joiners| && s.joiners[j].at.Asking? && s.joiners[j].socket < |s.sockets|
    ensures var x, t := s.joiners[j], Run(s, [Join(j, Acked), Join(j, Acked)]);
            var owned := x.id in s.db.rows && s.db.rows[x.id].owner == x.identity;
            && j < |t.joiners| && t.joiners[j].at == Ended(owned) && t.db == s.db
            && t.sockets == if owned
                            then s.sockets[x.socket :=
                                   Socket(s.sockets[x.socket].identity, s.sockets[x.socket].rooms + {x.id})]
                            else s.sockets
  {
    Runs.RunTwo(s, Join(j, Acked), Join(j, Acked));
  }

  /** Of a claim it owns, a request is turned away only by a failing command. */
  lemma OwnerIsTurnedAwayByFailure(s: State, j: nat, o: Outcome)
    requires j < |s.joiners| && !s.joiners[j].at.Ended?
    requires s.joiners[j].at.Asking? ==> Owned(s.db.rows, s.joiners[j].id, s.joiners[j].identity)
    ensures var t := Step(s, Join(j, o));
            && j < |t.joiners|
            && (t.joiners[j].at == Ended(false) <==> o != Acked)
            && (o != Acked <==> t.faults.failed[JoinThread(j)] > s.faults.failed[JoinThread(j)])
  {
  }
}
