/** What callers of `createClaim` are told: replays are sound, and without a lapse all agree. */
module Replies {
  import opened Basics
  import opened IdempotencyKeys
  import opened ClaimSystem
  import Frames
  import opened Registry
  import opened Accounting
  import Runs

  // ---------------------------------------------------------------- completed records are sound

  /** The claim a caller is about to name, or has named, to its client. */
  function Named(at: CreateAt): Option<ClaimId> {
    match at
    case Fetch(id) => Some(id)
    case Replied(Created(id)) => Some(id)
    case Replied(Replayed(id)) => Some(id)
    case _ => None
  }

  /** A claim whose row exists for good, created under this key. */
  predicate Lasting(s: State, id: ClaimId, k: Key) {
    && id in s.db.rows
    && id in s.log.issued && s.log.issued[id] < |s.creators|
    && s.creators[s.log.issued[id]].key == k
    && Settled(s.creators[s.log.issued[id]].at)
  }

  predicate Sound(s: State) {
    && (forall k | k in s.db.keys && s.db.keys[k].mark.Complete? :: Lasting(s, s.db.keys[k].mark.claim, k))
    && (forall n | 0 <= n < |s.creators| && Named(s.creators[n].at).Some? ::
          Lasting(s, Named(s.creators[n].at).value, s.creators[n].key))
  }

  lemma RowsSurvive(rows: map<ClaimId, Row>, c: Creator, o: Outcome, id: ClaimId)
    requires id in rows && !(c.at.Compensate? && c.claim == Some(id))
    ensures id in RowsAfterCreate(rows, c, o)
  {
  }

  lemma LastingSurvivesCreate(s: State, i: nat, o: Outcome, uuid: ClaimId, id: ClaimId, k: Key)
    requires Registered(s) && Enabled(s, Create(i, o, uuid)) && Lasting(s, id, k)
    ensures Lasting(CreateStep(s, i, o, uuid), id, k)
  {
    LastingHolds(s, i, o, uuid, id, k);
  }

  lemma LastingHolds(s: State, i: nat, o: Outcome, uuid: ClaimId, id: ClaimId, k: Key)
    requires Enabled(s, Create(i, o, uuid)) && Issued(s.creators, s.log.issued) && Lasting(s, id, k)
    ensures Lasting(CreateStep(s, i, o, uuid), id, k)
  {
    var c := s.creators[i];
    RowsSurvive(s.db.rows, c, o, id);
    if s.log.issued[id] == i {
      SettledStays(s, c, o);
    }
    assert CreateStep(s, i, o, uuid).log.issued[id] == s.log.issued[id];
  }

  /** Settled callers stay settled. */
  lemma SettledStays(s: State, c: Creator, o: Outcome)
    requires Settled(c.at)
    ensures Settled(NextCreateAt(s, c, o))
  {
  }

  /** Completing makes the caller's own claim last. */
  lemma CompletedIsLasting(s: State, i: nat, o: Outcome, uuid: ClaimId)
    requires Registered(s) && Enabled(s, Create(i, o, uuid)) && s.creators[i].at.Finalize?
    ensures s.creators[i].claim.Some?
    ensures Lasting(CreateStep(s, i, o, uuid), s.creators[i].claim.value, s.creators[i].key)
  {
    assert Placed(s, s.creators[i]);
  }

  /** A completion is written by the claim's own creator, whose row is there. */
  lemma CreateWritesSoundRecords(s: State, i: nat, o: Outcome, uuid: ClaimId, k: Key)
    requires Registered(s) && Sound(s) && Enabled(s, Create(i, o, uuid))
    requires var keys := KeysAfterCreate(s.db, s.creators[i], o); k in keys && keys[k].mark.Complete?
    ensures Lasting(CreateStep(s, i, o, uuid), KeysAfterCreate(s.db, s.creators[i], o)[k].mark.claim, k)
  {
    var c := s.creators[i];
    if c.at.Finalize? && o != Lost && c.key == k {
      CompletedIsLasting(s, i, o, uuid);
    } else {
      RecordsOnlyFromFinalize(s.db, c, o, k);
      assert Lasting(s, s.db.keys[k].mark.claim, k);
      LastingSurvivesCreate(s, i, o, uuid, s.db.keys[k].mark.claim, k);
    }
  }

  lemma RecordsOnlyFromFinalize(db: Store, c: Creator, o: Outcome, k: Key)
    requires !(c.at.Finalize? && o != Lost && c.key == k)
    requires k in KeysAfterCreate(db, c, o) && KeysAfterCreate(db, c, o)[k].mark.Complete?
    ensures k in db.keys && db.keys[k].mark == KeysAfterCreate(db, c, o)[k].mark
  {
  }

  /** The names a caller can come to hold, and where it has them from. */
  lemma NamesComeFrom(s: State, c: Creator, o: Outcome)
    requires Named(NextCreateAt(s, c, o)).Some?
    ensures var id := Named(NextCreateAt(s, c, o)).value;
            || Named(c.at) == Some(id)
            || CompletedClaim(s.db.keys, c.key) == Some(id)
            || (c.at.Finalize? && o == Acked && c.claim == Some(id))
  {
  }

  lemma OwnNameIsLasting(s: State, i: nat, o: Outcome, uuid: ClaimId, id: ClaimId)
    requires Registered(s) && Sound(s) && Enabled(s, Create(i, o, uuid))
    requires var c := s.creators[i];
             || Named(c.at) == Some(id)
             || CompletedClaim(s.db.keys, c.key) == Some(id)
             || (c.at.Finalize? && o == Acked && c.claim == Some(id))
    ensures Lasting(CreateStep(s, i, o, uuid), id, s.creators[i].key)
  {
    var c := s.creators[i];
    if c.at.Finalize? && o == Acked && c.claim == Some(id) {
      CompletedIsLasting(s, i, o, uuid);
    } else {
      HeldNameIsLasting(s, i, id);
      LastingSurvivesCreate(s, i, o, uuid, id, c.key);
    }
  }

  lemma HeldNameIsLasting(s: State, i: nat, id: ClaimId)
    requires Sound(s) && i < |s.creators|
    requires Named(s.creators[i].at) == Some(id) || CompletedClaim(s.db.keys, s.creators[i].key) == Some(id)
    ensures Lasting(s, id, s.creators[i].key)
  {
  }

  lemma CreateSound(s: State, i: nat, o: Outcome, uuid: ClaimId)
    requires Registered(s) && Sound(s) && Enabled(s, Create(i, o, uuid))
    ensures Sound(CreateStep(s, i, o, uuid))
  {
    var t := CreateStep(s, i, o, uuid);
    forall k | k in t.db.keys && t.db.keys[k].mark.Complete? ensures Lasting(t, t.db.keys[k].mark.claim, k) {
      CreateWritesSoundRecords(s, i, o, uuid, k);
    }
    forall n | 0 <= n < |t.creators| && Named(t.creators[n].at).Some?
      ensures Lasting(t, Named(t.creators[n].at).value, t.creators[n].key)
    {
      if n == i {
        NamesComeFrom(s, s.creators[i], o);
        OwnNameIsLasting(s, i, o, uuid, Named(t.creators[i].at).value);
      } else {
        LastingSurvivesCreate(s, i, o, uuid, Named(s.creators[n].at).value, s.creators[n].key);
      }
    }
  }

  /** Steps that leave callers and rows alone, and at most remove entries. */
  lemma QuietSound(s: State, t: State)
    requires Sound(s) && t.creators == s.creators && t.log.issued == s.log.issued
    requires t.db.rows.Keys == s.db.rows.Keys
    requires forall k | k in t.db.keys :: k in s.db.keys && t.db.keys[k] == s.db.keys[k]
    ensures Sound(t)
  {
    forall k | k in t.db.keys && t.db.keys[k].mark.Complete? ensures Lasting(t, t.db.keys[k].mark.claim, k) {
      assert Lasting(s, s.db.keys[k].mark.claim, k);
    }
    forall n | 0 <= n < |t.creators| && Named(t.creators[n].at).Some?
      ensures Lasting(t, Named(t.creators[n].at).value, t.creators[n].key)
    {
      assert Lasting(s, Named(s.creators[n].at).value, s.creators[n].key);
    }
  }

  lemma CallSound(s: State, identity: Text, header: Option<Text>, fingerprint: Text)
    requires Sound(s)
    ensures Sound(CallStep(s, identity, header, fingerprint))
  {
    var t := CallStep(s, identity, header, fingerprint);
    forall k | k in t.db.keys && t.db.keys[k].mark.Complete? ensures Lasting(t, t.db.keys[k].mark.claim, k) {
      assert Lasting(s, s.db.keys[k].mark.claim, k);
    }
    forall n | 0 <= n < |t.creators| && Named(t.creators[n].at).Some?
      ensures Lasting(t, Named(t.creators[n].at).value, t.creators[n].key)
    {
      assert Lasting(s, Named(s.creators[n].at).value, s.creators[n].key);
    }
  }

  lemma KillSound(s: State, i: nat)
    requires Sound(s) && Enabled(s, KillCreator(i))
    ensures Sound(Step(s, KillCreator(i)))
  {
    var t := Step(s, KillCreator(i));
    forall k | k in t.db.keys && t.db.keys[k].mark.Complete? ensures Lasting(t, t.db.keys[k].mark.claim, k) {
      assert Lasting(s, s.db.keys[k].mark.claim, k);
    }
    forall n | 0 <= n < |t.creators| && Named(t.creators[n].at).Some?
      ensures Lasting(t, Named(t.creators[n].at).value, t.creators[n].key)
    {
      assert Lasting(s, Named(s.creators[n].at).value, s.creators[n].key);
    }
  }

  lemma StepSound(s: State, a: Action)
    requires Registered(s) && Sound(s)
    ensures Sound(Step(s, a))
  {
    if Enabled(s, a) {
      if a.Create? {
        CreateSound(s, a.creator, a.outcome, a.uuid);
      } else if a.KillCreator? {
        KillSound(s, a.creator);
      } else if a.Call? {
        CallSound(s, a.identity, a.header, a.fingerprint);
      } else {
        Frames.OutsideFrames(s, a);
        QuietSound(s, Step(s, a));
      }
    }
  }

  /** In every reachable state, lapses included, a completed entry and every claim on its way
      to a client name a row that exists and was created under the same key. */
  lemma {:induction false} AlwaysSound(limit: nat, actions: seq<Action>)
    ensures Sound(Run(Init(limit), actions))
  {
    if actions != [] {
      var front := actions[..|actions| - 1];
      AlwaysSound(limit, front);
      AlwaysRegistered(limit, front);
      StepSound(Run(Init(limit), front), actions[|actions| - 1]);
    }
  }

  predicate IdentitiesColonFree(s: State) {
    forall n | 0 <= n < |s.creators| :: ColonFree(s.creators[n].identity)
  }

  /** So the replay's `getClaim` finds the caller's own claim, whenever it is answered. */
  lemma ReplayFindsOwnClaim(s: State, i: nat)
    requires Reachable(s) && IdentitiesColonFree(s) && i < |s.creators| && s.creators[i].at.Fetch?
    ensures var id := s.creators[i].at.found;
            && Owned(s.db.rows, id, s.creators[i].identity)
            && NextCreateAt(s, s.creators[i], Acked) == Replied(Replayed(id))
  {
    var limit, actions :| s == Run(Init(limit), actions);
    AlwaysSound(limit, actions);
    AlwaysRegistered(limit, actions);
    var c := s.creators[i];
    var id := c.at.found;
    assert Named(c.at) == Some(id);
    var d := s.creators[s.log.issued[id]];
    assert Placed(s, c) && Placed(s, d);
    KeyIsolation(c.identity, c.part, d.identity, d.part);
  }

  // ---------------------------------------------------------------- agreement without a lapse

  /** The claim a client was told, in a reply that counts as a success. */
  function Told(at: CreateAt): Option<ClaimId> {
    if at.Replied? then Named(at) else None
  }

  /** The claim is recorded as one of this identity. */
  predicate OwnedBy(s: State, id: ClaimId, identity: Text) {
    && id in s.log.issued && s.log.issued[id] < |s.creators|
    && s.creators[s.log.issued[id]].identity == identity
  }

  /** Whatever claim a caller was told of is one of its own identity. */
  predicate ToldOwn(s: State) {
    forall n | 0 <= n < |s.creators| && Told(s.creators[n].at).Some? ::
      OwnedBy(s, Told(s.creators[n].at).value, s.creators[n].identity)
  }

  lemma OwnershipStays(s: State, a: Action, id: ClaimId, identity: Text)
    requires OwnedBy(s, id, identity)
    ensures OwnedBy(Step(s, a), id, identity)
  {
    if Enabled(s, a) {
      if a.Create? {
        Frames.CreateFrames(s, a.creator, a.outcome, a.uuid);
      } else if !a.Call? && !a.KillCreator? {
        Frames.OutsideFrames(s, a);
      }
    }
  }

  /** A caller's own command tells it of a claim only after the row was found to be its own, or when the
      claim was drawn for it. */
  lemma CommandTellsOwn(s: State, i: nat, o: Outcome)
    requires Registered(s) && i < |s.creators| && Told(s.creators[i].at).None?
    requires Told(NextCreateAt(s, s.creators[i], o)).Some?
    ensures OwnedBy(s, Told(NextCreateAt(s, s.creators[i], o)).value, s.creators[i].identity)
  {
    assert Placed(s, s.creators[i]);
  }

  lemma CreateTellsOwn(s: State, i: nat, o: Outcome, uuid: ClaimId)
    requires Registered(s) && ToldOwn(s) && Enabled(s, Create(i, o, uuid))
    ensures ToldOwn(CreateStep(s, i, o, uuid))
  {
    var t := CreateStep(s, i, o, uuid);
    if Told(s.creators[i].at).None? && Told(t.creators[i].at).Some? {
      CommandTellsOwn(s, i, o);
    }
    forall n | 0 <= n < |t.creators| && Told(t.creators[n].at).Some?
      ensures OwnedBy(t, Told(t.creators[n].at).value, t.creators[n].identity)
    {
      OwnershipStays(s, Create(i, o, uuid), Told(t.creators[n].at).value, t.creators[n].identity);
    }
  }

  lemma OtherTellsOwn(s: State, a: Action)
    requires ToldOwn(s) && Enabled(s, a) && !a.Create?
    ensures ToldOwn(Step(s, a))
  {
    var t := Step(s, a);
    if !a.Call? && !a.KillCreator? {
      Frames.OutsideFrames(s, a);
    }
    forall n | 0 <= n < |t.creators| && Told(t.creators[n].at).Some?
      ensures OwnedBy(t, Told(t.creators[n].at).value, t.creators[n].identity)
    {
      OwnershipStays(s, a, Told(t.creators[n].at).value, t.creators[n].identity);
    }
  }

  lemma {:induction false} AlwaysToldOwn(limit: nat, actions: seq<Action>)
    ensures ToldOwn(Run(Init(limit), actions))
  {
    if actions != [] {
      var front, a := actions[..|actions| - 1], actions[|actions| - 1];
      AlwaysToldOwn(limit, front);
      AlwaysRegistered(limit, front);
      var s := Run(Init(limit), front);
      if Enabled(s, a) {
        if a.Create? {
          CreateTellsOwn(s, a.creator, a.outcome, a.uuid);
        } else {
          OtherTellsOwn(s, a);
        }
      }
    }
  }

  /** No client is ever told of a claim that is not its own, even where keys of different identities
      coincide: the claim is there, and its row belongs to the caller's identity. */
  lemma NobodyIsToldOfAnothersClaim(s: State, i: nat)
    requires Reachable(s) && i < |s.creators| && Told(s.creators[i].at).Some?
    ensures var id := Told(s.creators[i].at).value;
            id in s.db.rows && s.db.rows[id].owner == s.creators[i].identity
  {
    var limit, actions :| s == Run(Init(limit), actions);
    AlwaysToldOwn(limit, actions);
    AlwaysSound(limit, actions);
    AlwaysRegistered(limit, actions);
    assert Named(s.creators[i].at) == Told(s.creators[i].at);
    assert Lasting(s, Told(s.creators[i].at).value, s.creators[i].key);
  }

  /** The replay's read tells the caller of the claim if and only if its row belongs to the caller. */
  lemma ReplayedExactlyToOwner(s: State, i: nat, uuid: ClaimId)
    requires i < |s.creators| && s.creators[i].at.Fetch?
    ensures var c, t := s.creators[i], Step(s, Create(i, Acked, uuid));
            var id := c.at.found;
            && i < |t.creators| && t.db == s.db
            && t.creators[i].at == Replied(if id in s.db.rows && s.db.rows[id].owner == c.identity
                                           then Replayed(id) else Refused(NotFound))
  {
  }

  /** The cell the protocol implements: empty, or holding the claim of the key. */
  function Cell(s: State, k: Key): Option<ClaimId> {
    CompletedClaim(s.db.keys, k)
  }

  /** The caller is named a claim in `s` that it was not named in `b`. */
  predicate NamedSince(b: State, s: State, n: nat)
    requires n < |s.creators|
  {
    Named(s.creators[n].at).Some? && (n < |b.creators| ==> Named(b.creators[n].at).None?)
  }

  /** The claim in the cell is the one its creator was told, some time after `b`. */
  predicate HeldSince(b: State, s: State, k: Key, id: ClaimId) {
    && id in s.log.issued && s.log.issued[id] < |s.creators|
    && s.creators[s.log.issued[id]].key == k && s.creators[s.log.issued[id]].at == Replied(Created(id))
    && (s.log.issued[id] < |b.creators| ==> !Through(b.creators[s.log.issued[id]].at))
  }

  /** As long as a key has not lapsed since `b`, a cell that was full keeps its claim, and every name
      that came into use is the one in the cell. */
  predicate Agreed(b: State, s: State, k: Key) {
    s.log.lapses[k] == b.log.lapses[k] ==>
      && (Cell(b, k).Some? ==> Cell(s, k) == Cell(b, k))
      && (forall n | 0 <= n < |s.creators| && s.creators[n].key == k && NamedSince(b, s, n) ::
            Named(s.creators[n].at) == Cell(s, k))
      && (Cell(s, k).Some? && Cell(b, k).None? ==> HeldSince(b, s, k, Cell(s, k).value))
  }

  /** Whoever was not done when the epoch began was not engaged either. */
  lemma UnfinishedJoins(b: State, s: State, k: Key, i: nat)
    requires Epoch(b, s, k) && i < |s.creators| && s.creators[i].key == k && Engaged(s, i)
    requires i < |b.creators| ==> !Through(b.creators[i].at)
    ensures Joins(b, s, i)
  {
    if i < |b.creators| {
      assert StaysDone(b, s, i) && Placed(b, b.creators[i]);
    }
  }

  lemma InsideJoins(b: State, s: State, k: Key, i: nat)
    requires Epoch(b, s, k) && i < |s.creators| && s.creators[i].key == k && Inside(s.creators[i].at)
    ensures Joins(b, s, i)
  {
    assert i < |b.creators| ==> StaysDone(b, s, i);
    UnfinishedJoins(b, s, k, i);
  }

  /** When the cell is full and the key has not lapsed since, nobody is inside its locked section. */
  lemma FullCellKeepsOut(b: State, s: State, k: Key, i: nat)
    requires Epoch(b, s, k) && Sound(s) && Agreed(b, s, k)
    requires s.log.lapses[k] == b.log.lapses[k] && Cell(s, k).Some? && i < |s.creators| && s.creators[i].key == k
    ensures !Inside(s.creators[i].at)
  {
    if Inside(s.creators[i].at) {
      InsideJoins(b, s, k, i);
      OneJoinsPerEpoch(b, s, k, i, i);
      var id := Cell(s, k).value;
      assert Lasting(s, id, k);
      var j := s.log.issued[id];
      UnfinishedJoins(b, s, k, j);
      OneJoinsPerEpoch(b, s, k, i, j);
    }
  }

  /** Outside the locked section, and short of a slip, a command leaves a full cell as it is. */
  lemma OutsideKeepsCell(s: State, c: Creator, o: Outcome, k: Key)
    requires c.key == k ==> !Inside(c.at)
    ensures CompletedClaim(KeysAfterCreate(s.db, c, o), k) == Cell(s, k)
  {
  }

  /** Inside it, the only way to fill the cell is to be told of one's own claim. */
  lemma InsideFillsCell(s: State, c: Creator, o: Outcome, k: Key)
    requires Cell(s, k).None? && !Slips(c, o)
    ensures var cell := CompletedClaim(KeysAfterCreate(s.db, c, o), k);
            cell.Some? ==>
              c.key == k && c.at.Finalize? && c.claim == cell && NextCreateAt(s, c, o) == Replied(Created(cell.value))
  {
  }

  /** How the cell looks after a caller's step that does not lapse the key. */
  lemma CreateCell(b: State, s: State, i: nat, o: Outcome, uuid: ClaimId, k: Key)
    requires Epoch(b, s, k) && Sound(s) && Agreed(b, s, k) && Enabled(s, Create(i, o, uuid))
    requires CreateStep(s, i, o, uuid).log.lapses[k] == b.log.lapses[k]
    ensures s.log.lapses[k] == b.log.lapses[k]
    ensures var t, c := CreateStep(s, i, o, uuid), s.creators[i];
            || (Cell(t, k) == Cell(s, k) && (c.key == k && Cell(s, k).Some? ==> !Inside(c.at)))
            || (Cell(s, k).None? && Cell(t, k).Some? && c.key == k && c.claim == Cell(t, k) && c.at.Finalize?
                && NextCreateAt(s, c, o) == Replied(Created(Cell(t, k).value)))
  {
    var c := s.creators[i];
    if c.key == k && Cell(s, k).None? {
      assert !Slips(c, o);
      InsideFillsCell(s, c, o, k);
    } else {
      if c.key == k {
        FullCellKeepsOut(b, s, k, i);
      }
      OutsideKeepsCell(s, c, o, k);
    }
  }

  /** A caller's new name is the cell's content. */
  lemma CreateAgreesOnName(b: State, s: State, i: nat, o: Outcome, uuid: ClaimId, k: Key)
    requires Epoch(b, s, k) && Sound(s) && Agreed(b, s, k) && Enabled(s, Create(i, o, uuid))
    requires CreateStep(s, i, o, uuid).log.lapses[k] == b.log.lapses[k] && s.creators[i].key == k
    requires NamedSince(b, CreateStep(s, i, o, uuid), i)
    ensures Named(NextCreateAt(s, s.creators[i], o)) == Cell(CreateStep(s, i, o, uuid), k)
  {
    var c := s.creators[i];
    CreateCell(b, s, i, o, uuid, k);
    if c.at.Finalize? {
      OwnCompletionNames(s, c, o);
    } else {
      NamesComeFrom(s, c, o);
      OldNameSince(b, s, i, o, uuid);
    }
  }

  lemma OwnCompletionNames(s: State, c: Creator, o: Outcome)
    requires c.at.Finalize? && Named(NextCreateAt(s, c, o)).Some?
    ensures Named(NextCreateAt(s, c, o)) == c.claim == CompletedClaim(KeysAfterCreate(s.db, c, o), c.key)
  {
  }

  lemma OldNameSince(b: State, s: State, i: nat, o: Outcome, uuid: ClaimId)
    requires Enabled(s, Create(i, o, uuid)) && NamedSince(b, CreateStep(s, i, o, uuid), i)
    ensures Named(s.creators[i].at).Some? ==> NamedSince(b, s, i)
  {
  }

  /** Whoever fills the cell in an epoch holds it since then. */
  lemma FillerHolds(b: State, s: State, i: nat, o: Outcome, uuid: ClaimId, k: Key, id: ClaimId)
    requires Epoch(b, s, k) && Enabled(s, Create(i, o, uuid)) && s.creators[i].key == k && s.creators[i].at.Finalize?
    requires s.creators[i].claim == Some(id) && NextCreateAt(s, s.creators[i], o) == Replied(Created(id))
    ensures HeldSince(b, CreateStep(s, i, o, uuid), k, id)
  {
    assert i < |b.creators| ==> StaysDone(b, s, i);
    assert Placed(s, s.creators[i]);
  }

  lemma CreateKeepsHolder(b: State, s: State, i: nat, o: Outcome, uuid: ClaimId, k: Key, id: ClaimId)
    requires Enabled(s, Create(i, o, uuid)) && HeldSince(b, s, k, id)
    ensures HeldSince(b, CreateStep(s, i, o, uuid), k, id)
  {
  }

  lemma CreateAgreed(b: State, s: State, i: nat, o: Outcome, uuid: ClaimId, k: Key)
    requires Epoch(b, s, k) && Sound(s) && Agreed(b, s, k) && Enabled(s, Create(i, o, uuid))
    ensures Agreed(b, CreateStep(s, i, o, uuid), k)
  {
    var c, t := s.creators[i], CreateStep(s, i, o, uuid);
    if t.log.lapses[k] == b.log.lapses[k] {
      LapsesGrow(b, s, i, o, uuid, k);
      CreateCell(b, s, i, o, uuid, k);
      forall n | 0 <= n < |t.creators| && t.creators[n].key == k && NamedSince(b, t, n)
        ensures Named(t.creators[n].at) == Cell(t, k)
      {
        if n == i {
          CreateAgreesOnName(b, s, i, o, uuid, k);
        } else {
          assert NamedSince(b, s, n);
        }
      }
      if Cell(s, k).Some? && Cell(b, k).None? {
        CreateKeepsHolder(b, s, i, o, uuid, k, Cell(s, k).value);
      } else if Cell(t, k).Some? && Cell(b, k).None? {
        FillerHolds(b, s, i, o, uuid, k, Cell(t, k).value);
      }
    }
  }

  lemma LapsesGrow(b: State, s: State, i: nat, o: Outcome, uuid: ClaimId, k: Key)
    requires Epoch(b, s, k) && i < |s.creators| && CreateStep(s, i, o, uuid).log.lapses[k] == b.log.lapses[k]
    ensures s.log.lapses[k] == b.log.lapses[k]
  {
  }

  lemma QuietAgreed(b: State, s: State, t: State, k: Key)
    requires Agreed(b, s, k) && t.creators == s.creators && t.log.issued == s.log.issued
    requires t.log.lapses[k] == b.log.lapses[k] ==> s.log.lapses[k] == b.log.lapses[k] && Cell(t, k) == Cell(s, k)
    ensures Agreed(b, t, k)
  {
    assert forall n | 0 <= n < |t.creators| && NamedSince(b, t, n) :: NamedSince(b, s, n);
  }

  lemma KillAgreed(b: State, s: State, i: nat, k: Key)
    requires Agreed(b, s, k) && Enabled(s, KillCreator(i))
    ensures Agreed(b, Step(s, KillCreator(i)), k)
  {
    var t := Step(s, KillCreator(i));
    assert forall n | 0 <= n < |t.creators| && NamedSince(b, t, n) :: NamedSince(b, s, n);
  }

  lemma CallAgreed(b: State, s: State, identity: Text, header: Option<Text>, fingerprint: Text, k: Key)
    requires Agreed(b, s, k)
    ensures Agreed(b, CallStep(s, identity, header, fingerprint), k)
  {
    var t := CallStep(s, identity, header, fingerprint);
    assert forall n | 0 <= n < |t.creators| && NamedSince(b, t, n) :: n < |s.creators| && NamedSince(b, s, n);
  }

  lemma StepAgreed(b: State, s: State, a: Action, k: Key)
    requires Epoch(b, s, k) && Sound(s) && Agreed(b, s, k)
    ensures Agreed(b, Step(s, a), k)
  {
    if Enabled(s, a) {
      if a.Create? {
        CreateAgreed(b, s, a.creator, a.outcome, a.uuid, k);
      } else if a.KillCreator? {
        KillAgreed(b, s, a.creator, k);
      } else if a.Call? {
        CallAgreed(b, s, a.identity, a.header, a.fingerprint, k);
      } else {
        Frames.OutsideFrames(s, a);
        QuietAgreed(b, s, Step(s, a), k);
      }
    }
  }

  lemma ReachableSound(s: State)
    requires Reachable(s)
    ensures Sound(s)
  {
    var limit, actions :| s == Run(Init(limit), actions);
    AlwaysSound(limit, actions);
  }

  /** From any reachable state in which nobody is inside the key's locked section, however often the
      key has been used and has lapsed before. */
  lemma {:induction false} RunAgreed(b: State, more: seq<Action>, k: Key)
    requires Reachable(b) && NobodyInside(b, k)
    ensures Agreed(b, Run(b, more), k)
  {
    if more != [] {
      var front := more[..|more| - 1];
      RunAgreed(b, front, k);
      RunEpoch(b, front, k);
      Runs.ReachesOn(b, front);
      ReachableSound(Run(b, front));
      StepAgreed(b, Run(b, front), more[|more| - 1], k);
    }
  }

  /** In particular from the beginning. */
  lemma AlwaysAgreed(limit: nat, actions: seq<Action>, k: Key)
    ensures Agreed(Init(limit), Run(Init(limit), actions), k)
  {
    NothingYet(limit, k);
    RunAgreed(Init(limit), actions, k);
  }

  /** All successful replies for one key that are decided on in an epoch without a lapse carry the same
      claim, whichever path returned it; and if the entry named a claim when the epoch began, that one. */
  lemma RepliesAgree(b: State, more: seq<Action>, s: State, k: Key, i: nat, j: nat)
    requires Reachable(b) && NobodyInside(b, k) && s == Run(b, more) && s.log.lapses[k] == b.log.lapses[k]
    requires i < |s.creators| && j < |s.creators| && s.creators[i].key == s.creators[j].key == k
    requires Told(s.creators[i].at).Some? && NamedSince(b, s, i) && Told(s.creators[j].at).Some? && NamedSince(b, s, j)
    ensures Told(s.creators[i].at) == Told(s.creators[j].at) == Cell(s, k)
    ensures Cell(b, k).Some? ==> Cell(s, k) == Cell(b, k)
  {
    RunAgreed(b, more, k);
  }

  lemma StepCell(b: State, s: State, a: Action, k: Key)
    requires Epoch(b, s, k) && Sound(s) && Agreed(b, s, k) && Step(s, a).log.lapses[k] == b.log.lapses[k]
    ensures var t := Step(s, a);
            || Cell(t, k) == Cell(s, k)
            || (Cell(s, k).None? && Cell(t, k).Some? && a.Create? && a.creator < |s.creators|
                && s.creators[a.creator].key == k && s.creators[a.creator].claim == Cell(t, k)
                && t.creators[a.creator].at == Replied(Created(Cell(t, k).value)))
  {
    if Enabled(s, a) {
      if a.Create? {
        CreateCell(b, s, a.creator, a.outcome, a.uuid, k);
      } else if !a.Call? && !a.KillCreator? {
        Frames.OutsideFrames(s, a);
      }
    }
  }

  /** The protocol refines a put-if-absent cell: in an epoch, a step that does not lapse the key leaves
      the cell alone, or fills the empty cell with the claim of a caller that is told so at once. */
  lemma RefinesPutIfAbsent(b: State, more: seq<Action>, s: State, a: Action, t: State, k: Key)
    requires Reachable(b) && NobodyInside(b, k) && s == Run(b, more) && t == Step(s, a)
    requires t.log.lapses[k] == b.log.lapses[k]
    ensures || Cell(t, k) == Cell(s, k)
            || (Cell(s, k).None? && Cell(t, k).Some? && a.Create? && a.creator < |s.creators|
                && s.creators[a.creator].key == k && s.creators[a.creator].claim == Cell(t, k)
                && t.creators[a.creator].at == Replied(Created(Cell(t, k).value)))
  {
    RunAgreed(b, more, k);
    RunEpoch(b, more, k);
    Runs.ReachesOn(b, more);
    ReachableSound(s);
    StepCell(b, s, a, k);
  }
}
