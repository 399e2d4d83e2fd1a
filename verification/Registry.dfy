/** Who drew which identifier, which callers have a row, and whose row it is. */
module Registry {
  import opened Basics
  import opened IdempotencyKeys
  import opened Lifecycle
  import opened ClaimSystem
  import Frames

  /** Callers that have not drawn an identifier yet. */
  predicate Unnamed(at: CreateAt) {
    at.Lookup? || at.Fetch? || at.Acquire? || at.Poll? || at.Sleep? || at.Arm?
  }

  /** Callers that have drawn one but not asked for the row. */
  predicate Rowless(at: CreateAt) {
    at.Measure? || at.Insert?
  }

  /** Callers between their row's insertion and the point where they give it up or keep it. */
  predicate Rowed(at: CreateAt) {
    || at.MarkPending? || at.MarkTtl? || at.StorePayload? || at.Push?
    || at.Compensate? || at.Finalize?
  }

  /** What the position of one caller says about its identifier and row. */
  predicate Placed(s: State, c: Creator) {
    && (Unnamed(c.at) ==> c.claim.None?)
    && (Rowless(c.at) ==> c.claim.Some? && c.claim.value !in s.log.history)
    && (Rowed(c.at) ==> c.claim.Some? && c.claim.value in s.db.rows)
    && (c.at.Release? ==> c.claim.Some?)
    && (c.claim.Some? ==> c.claim.value in s.log.issued)
    && c.key == KeyFor(c.identity, c.part)
  }

  /** Every identifier belongs to exactly one caller. */
  predicate Issued(creators: seq<Creator>, issued: map<ClaimId, nat>) {
    && (forall id | id in issued :: issued[id] < |creators| && creators[issued[id]].claim == Some(id))
    && (forall n | 0 <= n < |creators| && creators[n].claim.Some? ::
          creators[n].claim.value in issued && issued[creators[n].claim.value] == n)
  }

  predicate RowsOwned(s: State) {
    && s.log.history.Keys == s.log.events.Keys
    && s.log.history.Keys <= s.log.issued.Keys
    && s.db.rows.Keys <= s.log.history.Keys
    && forall id | id in s.db.rows ::
         id in s.log.issued && s.log.issued[id] < |s.creators|
         && s.db.rows[id].owner == s.creators[s.log.issued[id]].identity
  }

  predicate Registered(s: State) {
    && Issued(s.creators, s.log.issued)
    && RowsOwned(s)
    && forall n | 0 <= n < |s.creators| :: Placed(s, s.creators[n])
  }

  /** Steps of other threads: callers, identifiers and the set of rows stay as they are. */
  predicate SameRegistry(s: State, t: State) {
    && t.limit == s.limit
    && t.creators == s.creators
    && t.log.issued == s.log.issued
    && t.db.rows.Keys == s.db.rows.Keys
    && t.log.history.Keys == s.log.history.Keys
    && t.log.events.Keys == s.log.events.Keys
    && forall id | id in s.db.rows :: t.db.rows[id].owner == s.db.rows[id].owner
  }

  lemma SameRegistryKeeps(s: State, t: State)
    requires Registered(s) && SameRegistry(s, t)
    ensures Registered(t)
  {
    forall n | 0 <= n < |t.creators| ensures Placed(t, t.creators[n]) {
      assert Placed(s, s.creators[n]);
    }
  }

  lemma CreateKeepsIssued(s: State, i: nat, o: Outcome, uuid: ClaimId)
    requires Registered(s) && Enabled(s, Create(i, o, uuid))
    ensures Issued(CreateStep(s, i, o, uuid).creators, CreateStep(s, i, o, uuid).log.issued)
  {
    assert Placed(s, s.creators[i]);
  }

  lemma CreateKeepsRowKeys(s: State, i: nat, o: Outcome, uuid: ClaimId)
    requires RowsOwned(s) && Enabled(s, Create(i, o, uuid)) && Placed(s, s.creators[i])
    ensures var t := CreateStep(s, i, o, uuid);
            && t.log.history.Keys == t.log.events.Keys
            && t.log.history.Keys <= t.log.issued.Keys
            && t.db.rows.Keys <= t.log.history.Keys
  {
  }

  lemma CreateKeepsRowsOwned(s: State, i: nat, o: Outcome, uuid: ClaimId)
    requires Registered(s) && Enabled(s, Create(i, o, uuid))
    ensures RowsOwned(CreateStep(s, i, o, uuid))
  {
    var c, t := s.creators[i], CreateStep(s, i, o, uuid);
    assert Placed(s, c);
    CreateKeepsRowKeys(s, i, o, uuid);
    forall id | id in t.db.rows
      ensures id in t.log.issued && t.log.issued[id] < |t.creators|
        && t.db.rows[id].owner == t.creators[t.log.issued[id]].identity
    {
      CreateKeepsOwner(s, i, o, uuid, id);
    }
  }

  lemma CreateKeepsOwner(s: State, i: nat, o: Outcome, uuid: ClaimId, id: ClaimId)
    requires Enabled(s, Create(i, o, uuid)) && Issued(s.creators, s.log.issued) && RowsOwned(s)
      && Placed(s, s.creators[i])
    requires id in RowsAfterCreate(s.db.rows, s.creators[i], o)
    ensures var t := CreateStep(s, i, o, uuid);
            id in t.log.issued && t.log.issued[id] < |t.creators|
            && RowsAfterCreate(s.db.rows, s.creators[i], o)[id].owner == t.creators[t.log.issued[id]].identity
  {
    var c := s.creators[i];
    if Inserts(c, o) && c.claim.value == id {
      assert s.log.issued[id] == i;
    } else {
      assert id in s.db.rows && RowsAfterCreate(s.db.rows, c, o)[id] == s.db.rows[id];
    }
  }

  /** The shape of `createClaim`'s control flow: which positions lead where. */
  lemma NextPosition(s: State, c: Creator, o: Outcome)
    ensures var at := NextCreateAt(s, c, o);
            && (Unnamed(at) ==> Unnamed(c.at) && !(c.at.Arm? && o == Acked))
            && (Rowless(at) ==> (c.at.Arm? && o == Acked) || c.at.Measure?)
            && (Rowed(at) ==> (c.at.Insert? && o == Acked) || (Rowed(c.at) && !c.at.Compensate?))
            && (at.Release? ==> (Rowless(c.at) || Rowed(c.at)) && at.cause in {Failed, Overloaded})
  {
  }

  /** A caller's own step leaves it where its identifier and row say it should be. */
  lemma CreatePlaces(s: State, i: nat, o: Outcome, uuid: ClaimId)
    requires Registered(s) && Enabled(s, Create(i, o, uuid))
    ensures Placed(CreateStep(s, i, o, uuid), NextCreator(s, s.creators[i], o, uuid))
  {
    assert Placed(s, s.creators[i]);
    NextPosition(s, s.creators[i], o);
    var t := CreateStep(s, i, o, uuid);
    assert t.log.issued == if s.creators[i].at == Arm && o == Acked then s.log.issued[uuid := i] else s.log.issued;
  }

  /** Another caller's position stays justified: its identifier is a different one. */
  lemma CreateKeepsPlaced(s: State, i: nat, o: Outcome, uuid: ClaimId, n: nat)
    requires Registered(s) && Enabled(s, Create(i, o, uuid)) && n < |s.creators| && n != i
    ensures Placed(CreateStep(s, i, o, uuid), s.creators[n])
  {
    assert Placed(s, s.creators[i]) && Placed(s, s.creators[n]);
  }

  lemma CreateRegisters(s: State, i: nat, o: Outcome, uuid: ClaimId)
    requires Registered(s) && Enabled(s, Create(i, o, uuid))
    ensures Registered(CreateStep(s, i, o, uuid))
  {
    var t := CreateStep(s, i, o, uuid);
    CreateKeepsIssued(s, i, o, uuid);
    CreateKeepsRowsOwned(s, i, o, uuid);
    CreatePlaces(s, i, o, uuid);
    forall n | 0 <= n < |t.creators| ensures Placed(t, t.creators[n]) {
      if n != i {
        CreateKeepsPlaced(s, i, o, uuid, n);
      }
    }
  }

  lemma WorkSame(s: State, w: nat, o: Outcome)
    requires w < |s.workers| && Registered(s)
    ensures SameRegistry(s, WorkStep(s, w, o))
  {
    Frames.WorkFrames(s, w, o);
    RecordsSame(s, s.workers[w], o);
  }

  lemma RecordsSame(s: State, x: Worker, o: Outcome)
    ensures HistoryAfterWork(s, x, o).Keys == s.log.history.Keys
    ensures LogAfterWork(s, x, o).events.Keys == s.log.events.Keys
    ensures forall id | id in s.db.rows ::
              id in RowsAfterWork(s.db.rows, x, o) && RowsAfterWork(s.db.rows, x, o)[id].owner == s.db.rows[id].owner
  {
    if x.at.Swap? {
      CasSame(s, x.at.id, x.at.version, Change(Target(x.at.id, x.at.stage), ByRun(x.run)));
    } else if x.at.Reread? {
      assert EmitTo(s, x.at.id, Target(x.at.id, x.at.stage)).Keys == s.log.events.Keys;
    }
  }

  lemma CasSame(s: State, id: ClaimId, version: nat, change: Change)
    ensures CasHistory(s, id, version, change).Keys == s.log.history.Keys
    ensures forall other | other in s.db.rows ::
              var rows := CasRows(s.db.rows, id, version, change.status);
              other in rows && rows[other].owner == s.db.rows[other].owner
  {
  }

  lemma UpdateSame(s: State, u: nat, o: Outcome)
    requires u < |s.updaters| && Registered(s)
    ensures SameRegistry(s, UpdateStep(s, u, o))
  {
    Frames.UpdateFrames(s, u, o);
    if s.updaters[u].at.Swapping? {
      CasSame(s, s.updaters[u].id, s.updaters[u].at.version, Change(s.updaters[u].target, ByUpdater(u)));
    }
    assert EmitTo(s, s.updaters[u].id, s.updaters[u].target).Keys == s.log.events.Keys;
  }

  lemma StepSame(s: State, a: Action)
    requires Registered(s) && Enabled(s, a) && !a.Create? && !a.Call? && !a.KillCreator?
    ensures SameRegistry(s, Step(s, a))
  {
    if a.Work? {
      WorkSame(s, a.worker, a.outcome);
    } else if a.Update? {
      UpdateSame(s, a.updater, a.outcome);
    } else {
      Frames.OutsideFrames(s, a);
      Frames.OtherFrames(s, a);
    }
  }

  lemma CallRegisters(s: State, identity: Text, header: Option<Text>, fingerprint: Text)
    requires Registered(s)
    ensures Registered(CallStep(s, identity, header, fingerprint))
  {
    var t := CallStep(s, identity, header, fingerprint);
    forall n | 0 <= n < |t.creators| ensures Placed(t, t.creators[n]) {
      assert n < |s.creators| ==> Placed(s, s.creators[n]);
    }
  }

  lemma KillRegisters(s: State, i: nat)
    requires Registered(s) && i < |s.creators|
    ensures Registered(s.(creators := s.creators[i := s.creators[i].(at := Killed)]))
  {
    forall n | 0 <= n < |s.creators| ensures Placed(s, s.creators[n]) {
    }
  }

  lemma StepRegisters(s: State, a: Action)
    requires Registered(s)
    ensures Registered(Step(s, a))
  {
    if Enabled(s, a) {
      if a.Create? {
        CreateRegisters(s, a.creator, a.outcome, a.uuid);
      } else if a.Call? {
        CallRegisters(s, a.identity, a.header, a.fingerprint);
      } else if a.KillCreator? {
        KillRegisters(s, a.creator);
      } else {
        StepSame(s, a);
        SameRegistryKeeps(s, Step(s, a));
      }
    }
  }

  lemma {:induction false} AlwaysRegistered(limit: nat, actions: seq<Action>)
    ensures Registered(Run(Init(limit), actions))
  {
    if actions != [] {
      AlwaysRegistered(limit, actions[..|actions| - 1]);
      StepRegisters(Run(Init(limit), actions[..|actions| - 1]), actions[|actions| - 1]);
    }
  }

  lemma ReachableRegistered(s: State)
    requires Reachable(s)
    ensures Registered(s)
  {
    var limit, actions :| s == Run(Init(limit), actions);
    AlwaysRegistered(limit, actions);
  }
}
