/** What becomes of a created claim once nobody is working on it any more. */
module Outcomes {
  import opened Basics
  import opened IdempotencyKeys
  import opened Lifecycle
  import opened ClaimSystem
  import Frames
  import opened Registry
  import opened Replies
  import Tokens
  import Ownership

  /** A claim is marked as pending only by its own caller, and only from `add` on. */
  predicate Marked(s: State) {
    forall id | id in s.db.markers :: MarkedByItsCaller(s, id)
  }

  predicate MarkedByItsCaller(s: State, id: ClaimId) {
    && id in s.log.issued && s.log.issued[id] < |s.creators|
    && var at := s.creators[s.log.issued[id]].at; !Unnamed(at) && !Rowless(at) && !at.MarkPending?
  }

  /** A caller about to complete, or told of its own claim, has pushed it. */
  predicate Queued(s: State, c: Creator) {
    c.at.Finalize? || (c.at.Replied? && c.at.reply.Created?) ==>
      && c.claim.Some? && s.log.added[c.claim.value] >= 1
      && (c.at.Replied? ==> c.at.reply.claim == c.claim.value)
  }

  predicate AllQueued(s: State) {
    forall n | 0 <= n < |s.creators| :: Queued(s, s.creators[n])
  }

  lemma CreateMarks(s: State, i: nat, o: Outcome, uuid: ClaimId)
    requires Registered(s) && Marked(s) && Enabled(s, Create(i, o, uuid))
    ensures Marked(CreateStep(s, i, o, uuid))
  {
    var t := CreateStep(s, i, o, uuid);
    forall id | id in t.db.markers ensures MarkedByItsCaller(t, id) {
      CreateMarksOne(s, i, o, uuid, id);
    }
  }

  lemma CreateMarksOne(s: State, i: nat, o: Outcome, uuid: ClaimId, id: ClaimId)
    requires Registered(s) && Marked(s) && Enabled(s, Create(i, o, uuid))
    requires id in CreateStep(s, i, o, uuid).db.markers
    ensures MarkedByItsCaller(CreateStep(s, i, o, uuid), id)
  {
    var c := s.creators[i];
    assert Placed(s, c);
    NextPosition(s, c, o);
    MarkIsPassedOnce(s, c, o);
    MarkIsNew(s.db, c, o, id);
    if id in s.db.markers {
      assert MarkedByItsCaller(s, id);
      assert CreateStep(s, i, o, uuid).log.issued[id] == s.log.issued[id];
    } else {
      assert s.log.issued[id] == i;
    }
  }

  lemma MarkIsNew(db: Store, c: Creator, o: Outcome, id: ClaimId)
    requires id in MarkersAfterCreate(db, c, o)
    ensures id in db.markers || (c.claim == Some(id) && c.at == MarkPending)
  {
  }

  lemma MarkIsPassedOnce(s: State, c: Creator, o: Outcome)
    ensures NextCreateAt(s, c, o).MarkPending? ==> c.at.Insert?
  {
  }

  /** So `add` never finds its own marker taken, and completing means having pushed. */
  lemma FinalizeAfterPush(s: State, c: Creator, o: Outcome)
    requires c.claim.Some? && (c.at.MarkPending? ==> c.claim.value !in s.db.markers)
    requires NextCreateAt(s, c, o).Finalize?
    ensures c.at.Push? && Enqueues(c, o)
  {
  }

  lemma CreateQueues(s: State, i: nat, o: Outcome, uuid: ClaimId)
    requires Registered(s) && Marked(s) && AllQueued(s) && Enabled(s, Create(i, o, uuid))
    ensures Queued(CreateStep(s, i, o, uuid), NextCreator(s, s.creators[i], o, uuid))
  {
    var c := s.creators[i];
    assert Placed(s, c) && Queued(s, c);
    NextPosition(s, c, o);
    if NextCreateAt(s, c, o).Finalize? {
      FinalizeAfterPush(s, c, o);
    }
    CreatedOnlyByFinalize(s, c, o);
  }

  lemma CreatedOnlyByFinalize(s: State, c: Creator, o: Outcome)
    ensures var at := NextCreateAt(s, c, o);
            at.Replied? && at.reply.Created? ==>
              c.at == at || (c.at.Finalize? && c.claim == Some(at.reply.claim))
  {
  }

  lemma StepQueues(s: State, a: Action)
    requires Registered(s) && Marked(s) && AllQueued(s)
    ensures Marked(Step(s, a)) && AllQueued(Step(s, a))
  {
    if Enabled(s, a) {
      if a.Create? {
        CreateMarks(s, a.creator, a.outcome, a.uuid);
        CreateQueues(s, a.creator, a.outcome, a.uuid);
        OthersStayQueued(s, a.creator, a.outcome, a.uuid);
      } else if a.KillCreator? {
        KillQueues(s, Step(s, a), a.creator);
      } else if a.Call? {
        AppendQueues(s, Step(s, a));
      } else {
        Frames.OutsideFrames(s, a);
        QuietQueues(s, Step(s, a));
      }
    }
  }

  lemma KillQueues(s: State, t: State, i: nat)
    requires Marked(s) && AllQueued(s) && i < |s.creators|
    requires t.creators == s.creators[i := s.creators[i].(at := Killed)]
    requires t.db.markers == s.db.markers && t.log.issued == s.log.issued && t.log.added == s.log.added
    ensures Marked(t) && AllQueued(t)
  {
    assert forall id | id in t.db.markers :: MarkedByItsCaller(s, id);
    assert forall n | 0 <= n < |t.creators| && n != i :: Queued(s, s.creators[n]);
  }

  lemma OthersStayQueued(s: State, i: nat, o: Outcome, uuid: ClaimId)
    requires AllQueued(s) && i < |s.creators|
    ensures forall n | 0 <= n < |s.creators| && n != i :: Queued(CreateStep(s, i, o, uuid), s.creators[n])
  {
  }

  lemma QuietQueues(s: State, t: State)
    requires Marked(s) && AllQueued(s) && t.creators == s.creators && t.log.issued == s.log.issued
    requires t.log.added == s.log.added && t.db.markers.Keys <= s.db.markers.Keys
    ensures Marked(t) && AllQueued(t)
  {
    forall n | 0 <= n < |t.creators| ensures Queued(t, t.creators[n]) {
      assert Queued(s, s.creators[n]);
    }
  }

  lemma AppendQueues(s: State, t: State)
    requires Marked(s) && AllQueued(s) && t.log.issued == s.log.issued && t.log.added == s.log.added
    requires t.db.markers == s.db.markers && |t.creators| == |s.creators| + 1
    requires t.creators == s.creators + [t.creators[|s.creators|]] && t.creators[|s.creators|].at.Lookup?
    ensures Marked(t) && AllQueued(t)
  {
    forall n | 0 <= n < |t.creators| ensures Queued(t, t.creators[n]) {
      assert n < |s.creators| ==> Queued(s, s.creators[n]);
    }
  }

  lemma {:induction false} AlwaysQueued(limit: nat, actions: seq<Action>)
    ensures Marked(Run(Init(limit), actions)) && AllQueued(Run(Init(limit), actions))
  {
    if actions != [] {
      var front := actions[..|actions| - 1];
      AlwaysQueued(limit, front);
      AlwaysRegistered(limit, front);
      StepQueues(Run(Init(limit), front), actions[|actions| - 1]);
    }
  }

  /** Every claim that a completed entry or a caller on its way to its client names has been pushed,
      also when its creator was told that completing had failed. */
  predicate NamesPushed(s: State) {
    && (forall k | k in s.db.keys && s.db.keys[k].mark.Complete? :: s.log.added[s.db.keys[k].mark.claim] >= 1)
    && (forall n | 0 <= n < |s.creators| && Named(s.creators[n].at).Some? ::
          s.log.added[Named(s.creators[n].at).value] >= 1)
  }

  lemma CreateNamesPushed(s: State, i: nat, o: Outcome, uuid: ClaimId)
    requires NamesPushed(s) && AllQueued(s) && i < |s.creators|
    ensures NamesPushed(CreateStep(s, i, o, uuid))
  {
    var c, t := s.creators[i], CreateStep(s, i, o, uuid);
    assert Queued(s, c);
    assert forall id :: s.log.added[id] <= t.log.added[id];
    forall k | k in t.db.keys && t.db.keys[k].mark.Complete? ensures t.log.added[t.db.keys[k].mark.claim] >= 1 {
      if !(c.at.Finalize? && o != Lost && c.key == k) {
        RecordsOnlyFromFinalize(s.db, c, o, k);
      }
    }
    if Named(t.creators[i].at).Some? {
      NamesComeFrom(s, c, o);
    }
    assert forall n | 0 <= n < |s.creators| && n != i :: t.creators[n] == s.creators[n];
  }

  lemma QuietNamesPushed(s: State, t: State)
    requires NamesPushed(s) && t.log.added == s.log.added
    requires forall n | 0 <= n < |t.creators| && Named(t.creators[n].at).Some? ::
               n < |s.creators| && t.creators[n] == s.creators[n]
    requires forall k | k in t.db.keys :: k in s.db.keys && t.db.keys[k] == s.db.keys[k]
    ensures NamesPushed(t)
  {
  }

  lemma StepNamesPushed(s: State, a: Action)
    requires NamesPushed(s) && AllQueued(s)
    ensures NamesPushed(Step(s, a))
  {
    if Enabled(s, a) {
      if a.Create? {
        CreateNamesPushed(s, a.creator, a.outcome, a.uuid);
      } else if a.KillCreator? {
        QuietNamesPushed(s, Step(s, a));
      } else if a.Call? {
        QuietNamesPushed(s, Step(s, a));
      } else {
        Frames.OutsideFrames(s, a);
        QuietNamesPushed(s, Step(s, a));
      }
    }
  }

  lemma {:induction false} AlwaysNamesPushed(limit: nat, actions: seq<Action>)
    ensures NamesPushed(Run(Init(limit), actions))
  {
    if actions != [] {
      var front := actions[..|actions| - 1];
      AlwaysNamesPushed(limit, front);
      AlwaysQueued(limit, front);
      StepNamesPushed(Run(Init(limit), front), actions[|actions| - 1]);
    }
  }

  /** Nobody has this claim waiting or in hand. */
  predicate AtRest(s: State, id: ClaimId) {
    id !in s.db.list && forall n | 0 <= n < |s.workers| :: Token(s.workers[n].at) != Some(id)
  }

  lemma {:induction false} NoHolders(workers: seq<Worker>, id: ClaimId)
    requires forall n | 0 <= n < |workers| :: Token(workers[n].at) != Some(id)
    ensures Tokens.Held(workers, id) == 0
  {
    if workers != [] {
      var last := |workers| - 1;
      NoHolders(workers[..last], id);
      assert Tokens.Holdings(workers, id)[..last] == Tokens.Holdings(workers[..last], id);
    } else {
      assert Tokens.Holdings(workers, id) == [];
    }
  }

  lemma ToldOwnClaim(s: State, i: nat, id: ClaimId)
    requires Registered(s) && AllQueued(s) && i < |s.creators| && Lasting(s, id, s.creators[i].key)
    requires s.creators[i].at == Replied(Created(id)) || IdentitiesColonFree(s)
    ensures Owned(s.db.rows, id, s.creators[i].identity)
  {
    var c, d := s.creators[i], s.creators[s.log.issued[id]];
    assert Placed(s, c) && Placed(s, d) && Queued(s, c);
    if IdentitiesColonFree(s) {
      KeyIsolation(c.identity, c.part, d.identity, d.part);
    }
  }

  /** A client that was told of a claim, by its own creation or by a replay, finds it, once nobody works
      on it any more, either decided as its identifier says or in the dead-letter queue, unless its token
      was dropped; and it is exactly one of the three. */
  lemma ClaimsToldEnd(s: State, i: nat, id: ClaimId)
    requires Reachable(s) && i < |s.creators| && Told(s.creators[i].at) == Some(id)
    requires s.updaters == [] && s.log.redelivered[id] == 0 && AtRest(s, id)
    ensures id in s.db.rows
    ensures s.creators[i].at == Replied(Created(id)) || IdentitiesColonFree(s) ==>
              Owned(s.db.rows, id, s.creators[i].identity)
    ensures multiset(s.db.dlq)[id] + s.log.retired[id] + s.log.dropped[id] == 1
    ensures id in s.log.retired ==> s.db.rows[id].status == Decision(id)
    ensures id in s.log.retired || id in s.db.dlq <==> s.log.dropped[id] == 0
  {
    var limit, actions :| s == Run(Init(limit), actions);
    AlwaysNamesPushed(limit, actions);
    AlwaysSound(limit, actions);
    AlwaysRegistered(limit, actions);
    AlwaysQueued(limit, actions);
    TokenEnds(s, i, id);
    assert Lasting(s, id, s.creators[i].key);
    if s.creators[i].at == Replied(Created(id)) || IdentitiesColonFree(s) {
      ToldOwnClaim(s, i, id);
    }
    if id in s.log.retired {
      Ownership.RetiredMeansDecided(s, id);
    }
  }

  lemma TokenEnds(s: State, i: nat, id: ClaimId)
    requires Reachable(s) && NamesPushed(s) && i < |s.creators| && Told(s.creators[i].at) == Some(id)
    requires s.log.redelivered[id] == 0 && AtRest(s, id)
    ensures multiset(s.db.dlq)[id] + s.log.retired[id] + s.log.dropped[id] == 1
  {
    assert Named(s.creators[i].at) == Some(id);
    Tokens.OneToken(s, id);
    NoHolders(s.workers, id);
  }

  // ---------------------------------------------------------------- runs that drop nothing

  /** The store calls a token's survival depends on: taking it with its payload, and the retry
      bookkeeping. Database calls may fail as they please. */
  predicate KeepsToken(s: State, x: Worker, o: Outcome) {
    && (x.at.Pop? || x.at.Load? || x.at.Count? || x.at.Check? ==> o == Acked)
    && (x.at.Load? ==> x.at.id in s.db.payloads)
    && (x.at.Requeue? || x.at.Bury? ==> o != Lost)
  }

  /** No worker is stopped or killed, and those calls succeed. */
  predicate Benign(s: State, a: Action) {
    match a
    case Work(w, o) => w < |s.workers| ==> KeepsToken(s, s.workers[w], o)
    case Stop(_) => false
    case KillWorker(_) => false
    case _ => true
  }

  predicate BenignRun(limit: nat, actions: seq<Action>) {
    actions != [] ==>
      var front := actions[..|actions| - 1];
      BenignRun(limit, front) && Benign(Run(Init(limit), front), actions[|actions| - 1])
  }

  predicate Untroubled(s: State) {
    s.log.dropped == multiset{} && forall n | 0 <= n < |s.workers| :: s.workers[n].running
  }

  lemma StepUntroubled(s: State, a: Action)
    requires Untroubled(s) && Benign(s, a)
    ensures Untroubled(Step(s, a))
  {
    if Enabled(s, a) {
      match a
      case Create(i, o, uuid) => Frames.CreateFrames(s, i, o, uuid);
      case Work(w, o) => BenignDropsNothing(s, s.workers[w], o);
      case Update(u, o) => Frames.UpdateFrames(s, u, o);
      case _ =>
    }
  }

  lemma BenignDropsNothing(s: State, x: Worker, o: Outcome)
    ensures x.running && KeepsToken(s, x, o) ==> Drops(s, x, o).None?
  {
  }

  lemma {:induction false} BenignRunsDropNothing(limit: nat, actions: seq<Action>)
    requires BenignRun(limit, actions)
    ensures Untroubled(Run(Init(limit), actions))
  {
    if actions != [] {
      var front := actions[..|actions| - 1];
      BenignRunsDropNothing(limit, front);
      StepUntroubled(Run(Init(limit), front), actions[|actions| - 1]);
    }
  }

  /** So in such a run every claim a client was told of, once at rest, is decided or dead-lettered,
      whatever the database did. */
  lemma ClaimsToldAreSettled(s: State, limit: nat, actions: seq<Action>, i: nat, id: ClaimId)
    requires s == Run(Init(limit), actions) && BenignRun(limit, actions)
    requires i < |s.creators| && Told(s.creators[i].at) == Some(id)
    requires s.updaters == [] && s.log.redelivered[id] == 0 && AtRest(s, id)
    ensures id in s.db.rows
    ensures (s.log.retired[id] == 1 && id !in s.db.dlq && s.db.rows[id].status == Decision(id))
            || (s.log.retired[id] == 0 && multiset(s.db.dlq)[id] == 1)
  {
    BenignRunsDropNothing(limit, actions);
    ClaimsToldEnd(s, i, id);
  }
}
