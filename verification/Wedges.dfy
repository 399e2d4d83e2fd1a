/** A lock that never expires: how a key comes by one, and what it means for later callers. */
module Wedges {
  import opened Basics
  import opened IdempotencyKeys
  import opened ClaimSystem
  import Frames
  import opened Accounting
  import Replies
  import Runs
  import opened Orphans

  /** The entry is pending, has no time to live, and nobody is inside the locked section:
      its caller failed between SETNX and PEXPIRE. */
  predicate Wedged(s: State, k: Key) {
    && k in s.db.keys && s.db.keys[k] == Record(InProgress, None)
    && NobodyInside(s, k)
  }

  lemma CallersKeepWedge(s: State, a: Action, k: Key)
    requires Wedged(s, k) && Enabled(s, a) && (a.Call? || a.KillCreator?)
    ensures Wedged(Step(s, a), k)
  {
  }

  /** An entry without a time to live does not run out. */
  lemma WedgeOutlasts(s: State, a: Action, k: Key)
    requires Wedged(s, k) && Enabled(s, a) && !a.Create? && Step(s, a).creators == s.creators
    ensures Wedged(Step(s, a), k)
  {
    if a.Work? {
      Frames.WorkFrames(s, a.worker, a.outcome);
    } else if a.Update? {
      Frames.UpdateFrames(s, a.updater, a.outcome);
    }
  }

  lemma WedgeHolds(s: State, a: Action, k: Key)
    requires Wedged(s, k)
    ensures Wedged(Step(s, a), k)
  {
    if Enabled(s, a) {
      if a.Create? {
        WedgeKeepsOut(s, s.creators[a.creator], a.outcome, k);
      } else if a.Call? || a.KillCreator? {
        CallersKeepWedge(s, a, k);
      } else {
        Frames.OutsideFrames(s, a);
        WedgeOutlasts(s, a, k);
      }
    }
  }

  lemma WedgeKeepsOut(s: State, c: Creator, o: Outcome, k: Key)
    requires k in s.db.keys && s.db.keys[k] == Record(InProgress, None) && (c.key == k ==> !Inside(c.at))
    ensures k in KeysAfterCreate(s.db, c, o) && KeysAfterCreate(s.db, c, o)[k] == s.db.keys[k]
    ensures c.key == k ==> !Inside(NextCreateAt(s, c, o))
    ensures c.key == k && Replies.Named(c.at).None? ==> Replies.Named(NextCreateAt(s, c, o)).None?
  {
  }

  /** From then on, and for ever: the entry stays, nobody enters, and no caller that was not
      already on its way to a claim is ever told of one. */
  lemma {:induction false} WedgedForEver(s: State, actions: seq<Action>, k: Key)
    requires Wedged(s, k)
    ensures Wedged(Run(s, actions), k)
    ensures forall n | 0 <= n < |Run(s, actions).creators| && Run(s, actions).creators[n].key == k
                && (n < |s.creators| ==> Replies.Named(s.creators[n].at).None?) ::
              Replies.Named(Run(s, actions).creators[n].at).None?
  {
    if actions != [] {
      var front, a := actions[..|actions| - 1], actions[|actions| - 1];
      WedgedForEver(s, front, k);
      var m := Run(s, front);
      WedgeHolds(m, a, k);
      WedgeNamesNothing(m, a, k);
      RunGrowsCreators(s, front);
    }
  }

  lemma {:induction false} RunGrowsCreators(s: State, actions: seq<Action>)
    ensures |s.creators| <= |Run(s, actions).creators|
  {
    if actions != [] {
      RunGrowsCreators(s, actions[..|actions| - 1]);
    }
  }

  lemma WedgeNamesNothing(s: State, a: Action, k: Key)
    requires Wedged(s, k)
    ensures var t := Step(s, a);
            |s.creators| <= |t.creators|
            && forall n | 0 <= n < |t.creators| && t.creators[n].key == k
                 && (n < |s.creators| ==> Replies.Named(s.creators[n].at).None?)
                 :: Replies.Named(t.creators[n].at).None?
  {
    if Enabled(s, a) {
      match a
      case Create(i, o, uuid) => WedgeKeepsOut(s, s.creators[i], o, k);
      case Work(w, o) => Frames.WorkFrames(s, w, o);
      case Update(u, o) => Frames.UpdateFrames(s, u, o);
      case _ =>
    }
  }

  /** A completed entry always has a time to live. */
  predicate CompletionsExpire(s: State) {
    forall k | k in s.db.keys && s.db.keys[k].expires.None? :: s.db.keys[k].mark == InProgress
  }

  lemma {:induction false} AlwaysCompletionsExpire(limit: nat, actions: seq<Action>)
    ensures CompletionsExpire(Run(Init(limit), actions))
  {
    if actions != [] {
      var front, a := actions[..|actions| - 1], actions[|actions| - 1];
      AlwaysCompletionsExpire(limit, front);
      var s := Run(Init(limit), front);
      if Enabled(s, a) {
        match a
        case Work(w, o) => Frames.WorkFrames(s, w, o);
        case Update(u, o) => Frames.UpdateFrames(s, u, o);
        case _ =>
      }
    }
  }

  /** Letting a time to live run out removes the entry. */
  lemma WaitItOut(s: State, k: Key) returns (wait: seq<Action>)
    requires k in s.db.keys && s.db.keys[k].expires.Some?
    ensures k !in Run(s, wait).db.keys
  {
    var a := Tick(s.db.keys[k].expires.value);
    wait := [a];
    assert Run(s, wait[..0]) == s;
    assert Run(s, wait) == Step(s, a);
    assert k !in TickStep(s, a.elapsed).db.keys;
  }

  /** Exactly which idle entries never go away: in any reachable state, when nobody is inside a
      key's locked section, its entry outlives every continuation just when it has no time to live. */
  lemma StuckExactlyWithoutTtl(s: State, k: Key)
    requires Reachable(s) && k in s.db.keys && NobodyInside(s, k)
    ensures s.db.keys[k].expires.None? <==> forall more :: k in Run(s, more).db.keys
  {
    var limit, actions :| s == Run(Init(limit), actions);
    AlwaysCompletionsExpire(limit, actions);
    if s.db.keys[k].expires.None? {
      forall more ensures k in Run(s, more).db.keys {
        WedgedForEver(s, more, k);
      }
    } else {
      var wait := WaitItOut(s, k);
    }
  }

  // ---------------------------------------------------------------- how a key gets wedged

  /** While a key has not lapsed since an epoch began, whoever is inside its locked section finds the
      pending entry, and without a time to live only before its own PEXPIRE. */
  predicate EntryHeld(b: State, s: State, k: Key) {
    s.log.lapses[k] == b.log.lapses[k] ==>
      forall n | 0 <= n < |s.creators| && s.creators[n].key == k && Inside(s.creators[n].at) ::
        Holds(s.db.keys, k, s.creators[n].at)
  }

  predicate Holds(keys: map<Key, Record>, k: Key, at: CreateAt) {
    k in keys && keys[k].mark.InProgress? && (at.Arm? <==> keys[k].expires.None?)
  }

  lemma OwnEntryHeld(s: State, c: Creator, o: Outcome)
    requires Inside(c.at) ==> Holds(s.db.keys, c.key, c.at)
    requires !Slips(c, o) && Inside(NextCreateAt(s, c, o))
    ensures Holds(KeysAfterCreate(s.db, c, o), c.key, NextCreateAt(s, c, o))
  {
  }

  /** Nobody else touches the entry of a caller inside. */
  lemma OthersKeepEntry(s: State, c: Creator, o: Outcome, k: Key)
    requires k in s.db.keys && (c.key == k ==> !Inside(c.at))
    ensures k in KeysAfterCreate(s.db, c, o) && KeysAfterCreate(s.db, c, o)[k] == s.db.keys[k]
  {
  }

  lemma CreateEntryHeld(b: State, s: State, i: nat, o: Outcome, uuid: ClaimId, k: Key)
    requires Epoch(b, s, k) && EntryHeld(b, s, k) && Enabled(s, Create(i, o, uuid))
    ensures EntryHeld(b, CreateStep(s, i, o, uuid), k)
  {
    var c, t := s.creators[i], CreateStep(s, i, o, uuid);
    assert t.log.lapses[k] == b.log.lapses[k] ==> s.log.lapses[k] == b.log.lapses[k] && (c.key == k ==> !Slips(c, o));
    forall n | 0 <= n < |t.creators| && t.creators[n].key == k && Inside(t.creators[n].at)
               && t.log.lapses[k] == b.log.lapses[k]
      ensures Holds(t.db.keys, k, t.creators[n].at)
    {
      if n == i {
        OwnEntryHeld(s, c, o);
      } else {
        if c.key == k && Inside(c.at) {
          Replies.InsideJoins(b, s, k, i);
          Replies.InsideJoins(b, s, k, n);
          OneJoinsPerEpoch(b, s, k, i, n);
        }
        OthersKeepEntry(s, c, o, k);
      }
    }
  }

  lemma QuietEntryHeld(b: State, s: State, t: State, k: Key)
    requires EntryHeld(b, s, k)
    requires t.creators == s.creators && b.log.lapses[k] <= s.log.lapses[k] <= t.log.lapses[k]
    requires t.log.lapses[k] == s.log.lapses[k] && k in s.db.keys ==> k in t.db.keys && t.db.keys[k] == s.db.keys[k]
    ensures EntryHeld(b, t, k)
  {
  }

  lemma KillEntryHeld(b: State, s: State, i: nat, k: Key)
    requires EntryHeld(b, s, k) && i < |s.creators|
    ensures EntryHeld(b, s.(creators := s.creators[i := s.creators[i].(at := Killed)]), k)
  {
  }

  lemma CallEntryHeld(b: State, s: State, identity: Text, header: Option<Text>, fingerprint: Text, k: Key)
    requires EntryHeld(b, s, k)
    ensures EntryHeld(b, CallStep(s, identity, header, fingerprint), k)
  {
  }

  lemma StepEntryHeld(b: State, s: State, a: Action, k: Key)
    requires Epoch(b, s, k) && EntryHeld(b, s, k)
    ensures EntryHeld(b, Step(s, a), k)
  {
    if Enabled(s, a) {
      if a.Create? {
        CreateEntryHeld(b, s, a.creator, a.outcome, a.uuid, k);
      } else if a.KillCreator? {
        KillEntryHeld(b, s, a.creator, k);
      } else if a.Call? {
        CallEntryHeld(b, s, a.identity, a.header, a.fingerprint, k);
      } else {
        Frames.OutsideFrames(s, a);
        QuietEntryHeld(b, s, Step(s, a), k);
      }
    }
  }

  lemma {:induction false} RunEntryHeld(b: State, more: seq<Action>, k: Key)
    requires Reachable(b) && NobodyInside(b, k)
    ensures EntryHeld(b, Run(b, more), k)
  {
    if more != [] {
      var front := more[..|more| - 1];
      RunEntryHeld(b, front, k);
      RunEpoch(b, front, k);
      StepEntryHeld(b, Run(b, front), more[|more| - 1], k);
    }
  }

  lemma AlwaysEntryHeld(limit: nat, actions: seq<Action>, k: Key)
    ensures EntryHeld(Init(limit), Run(Init(limit), actions), k)
  {
    NothingYet(limit, k);
    RunEntryHeld(Init(limit), actions, k);
  }

  /** SETNX on a free key is carried out but reported failed; PEXPIRE is not carried out; the caller
      dies between the two. */
  predicate Wedging(s: State, a: Action, k: Key) {
    match a
    case Create(i, o, _) =>
      i < |s.creators| && s.creators[i].key == k
      && ((s.creators[i].at.Acquire? && o == Unacked && k !in s.db.keys) || (s.creators[i].at.Arm? && o == Lost))
    case KillCreator(i) => i < |s.creators| && s.creators[i].key == k && s.creators[i].at.Arm?
    case _ => false
  }

  /** Exactly which steps wedge a key, in an epoch in which it has not lapsed. */
  lemma WedgedExactlyBy(b: State, more: seq<Action>, s: State, a: Action, t: State, k: Key)
    requires Reachable(b) && NobodyInside(b, k) && s == Run(b, more) && t == Step(s, a) && Enabled(s, a)
    requires t.log.lapses[k] == b.log.lapses[k] && !Wedged(s, k)
    ensures Wedged(t, k) <==> Wedging(s, a, k)
  {
    RunEpoch(b, more, k);
    RunEntryHeld(b, more, k);
    StepLapses(s, a, k);
    if a.Create? {
      CreateWedgesExactly(b, s, a.creator, a.outcome, a.uuid, k);
    } else if a.KillCreator? {
      KillWedgesExactly(b, s, a.creator, k);
    } else {
      OthersNeverWedge(s, a, k);
    }
  }

  /** A wedge that a step leaves behind was there before, if the step let nobody out of the locked
      section and left the entry alone. */
  lemma WedgeWasThere(s: State, t: State, k: Key)
    requires forall n | 0 <= n < |s.creators| ::
               n < |t.creators| && t.creators[n].key == s.creators[n].key
               && (s.creators[n].key == k && Inside(s.creators[n].at) ==> Inside(t.creators[n].at))
    requires k in t.db.keys ==> k in s.db.keys && t.db.keys[k] == s.db.keys[k]
    ensures Wedged(t, k) ==> Wedged(s, k)
  {
  }

  lemma OthersNeverWedge(s: State, a: Action, k: Key)
    requires Enabled(s, a) && !a.Create? && !a.KillCreator? && !Wedged(s, k)
    ensures !Wedged(Step(s, a), k)
  {
    match a
    case Work(w, o) => Frames.WorkFrames(s, w, o); WedgeWasThere(s, WorkStep(s, w, o), k);
    case Update(u, o) => Frames.UpdateFrames(s, u, o); WedgeWasThere(s, UpdateStep(s, u, o), k);
    case _ => WedgeWasThere(s, Step(s, a), k);
  }

  lemma CreateWedgesExactly(b: State, s: State, i: nat, o: Outcome, uuid: ClaimId, k: Key)
    requires Epoch(b, s, k) && EntryHeld(b, s, k) && Enabled(s, Create(i, o, uuid)) && !Wedged(s, k)
    requires CreateStep(s, i, o, uuid).log.lapses[k] == b.log.lapses[k]
    ensures Wedged(CreateStep(s, i, o, uuid), k) <==> Wedging(s, Create(i, o, uuid), k)
  {
    var c, t := s.creators[i], CreateStep(s, i, o, uuid);
    Replies.LapsesGrow(b, s, i, o, uuid, k);
    if c.key == k {
      InsideAlone(b, s, i, k);
      assert Inside(c.at) ==> Holds(s.db.keys, k, c.at);
      OwnWedge(s, c, o);
      OwnWedgeInState(s, t, i, k, NextCreateAt(s, c, o));
      if !Inside(c.at) && t.db.keys == s.db.keys {
        WedgeWasThere(s, t, k);
      }
    } else {
      assert k in t.db.keys ==> k in s.db.keys && t.db.keys[k] == s.db.keys[k];
      WedgeWasThere(s, t, k);
    }
  }

  /** Whether the step of one caller leaves a wedge depends on the entry and on where it goes. */
  lemma OwnWedgeInState(s: State, t: State, i: nat, k: Key, at: CreateAt)
    requires i < |s.creators| == |t.creators| && t.creators[i].key == k && t.creators[i].at == at
    requires forall n | 0 <= n < |s.creators| && n != i :: t.creators[n] == s.creators[n]
    ensures Wedged(t, k) ==> k in t.db.keys && t.db.keys[k] == Record(InProgress, None) && !Inside(at)
    ensures k in t.db.keys && t.db.keys[k] == Record(InProgress, None) && !Inside(at) ==>
              ((forall n | 0 <= n < |s.creators| && n != i && s.creators[n].key == k :: !Inside(s.creators[n].at))
               ==> Wedged(t, k))
  {
  }

  /** Nobody else is inside when this caller is, or when the key is free. */
  lemma InsideAlone(b: State, s: State, i: nat, k: Key)
    requires Epoch(b, s, k) && s.log.lapses[k] == b.log.lapses[k] && i < |s.creators|
    ensures s.creators[i].key == k && (Inside(s.creators[i].at) || k !in s.db.keys) ==>
              forall n | 0 <= n < |s.creators| && n != i && s.creators[n].key == k :: !Inside(s.creators[n].at)
  {
    if s.creators[i].key == k && (Inside(s.creators[i].at) || k !in s.db.keys) {
      forall n | 0 <= n < |s.creators| && n != i && s.creators[n].key == k ensures !Inside(s.creators[n].at) {
        if Inside(s.creators[n].at) {
          Replies.InsideJoins(b, s, k, n);
          OneJoinsPerEpoch(b, s, k, n, n);
          Replies.InsideJoins(b, s, k, i);
          OneJoinsPerEpoch(b, s, k, n, i);
        }
      }
    }
  }

  /** Where the caller's own command leaves itself and the entry. */
  lemma OwnWedge(s: State, c: Creator, o: Outcome)
    requires Inside(c.at) ==> Holds(s.db.keys, c.key, c.at)
    ensures var keys := KeysAfterCreate(s.db, c, o);
            var wedges := c.key in keys && keys[c.key] == Record(InProgress, None) && !Inside(NextCreateAt(s, c, o));
            var free := (c.at.Acquire? && o == Unacked && c.key !in s.db.keys) || (c.at.Arm? && o == Lost);
            && (free ==> wedges)
            && (wedges && !free ==> !Inside(c.at) && keys == s.db.keys)
  {
  }

  lemma KillWedgesExactly(b: State, s: State, i: nat, k: Key)
    requires Epoch(b, s, k) && EntryHeld(b, s, k) && Enabled(s, KillCreator(i)) && !Wedged(s, k)
    requires s.log.lapses[k] == b.log.lapses[k]
    ensures Wedged(Step(s, KillCreator(i)), k) <==> Wedging(s, KillCreator(i), k)
  {
    InsideAlone(b, s, i, k);
    if s.creators[i].key == k && Inside(s.creators[i].at) {
      assert Holds(s.db.keys, k, s.creators[i].at);
    } else {
      WedgeWasThere(s, Step(s, KillCreator(i)), k);
    }
  }

  /** Such a run exists for every request, from any state in which its key is free and unused. */
  lemma WedgeReached(s: State, identity: Text, header: Option<Text>, fingerprint: Text, id: ClaimId)
    requires BuildKey(identity, header, fingerprint) !in s.db.keys && id !in s.log.issued
    requires NobodyInside(s, BuildKey(identity, header, fingerprint))
    ensures var k, go := BuildKey(identity, header, fingerprint), Own(s, Acked, id);
            Wedged(Run(s, [Call(identity, header, fingerprint), go] + [go, Own(s, Lost, id)]), k)
  {
    var k, go, call := BuildKey(identity, header, fingerprint), Own(s, Acked, id), Call(identity, header, fingerprint);
    Runs.RunConcat(s, [call, go], [go, Own(s, Lost, id)]);
    Runs.RunTwo(s, call, go);
    Runs.RunTwo(Step(Step(s, call), go), go, Own(s, Lost, id));
    var t := LosePExpire(s, identity, header, fingerprint, id);
  }

  lemma ArmsInVain(s: State, t: State, k: Key, id: ClaimId)
    requires StandsAt(s, t, k, Arm, None) && id !in s.log.issued && t.log.issued == s.log.issued
    requires k in t.db.keys && t.db.keys[k] == Record(InProgress, None)
    requires NobodyInside(s, k)
    ensures Wedged(Step(t, Own(s, Lost, id)), k)
  {
    OneMore(s, t, k, Lost, id);
  }

  lemma LosePExpire(s: State, identity: Text, header: Option<Text>, fingerprint: Text, id: ClaimId) returns (t: State)
    requires BuildKey(identity, header, fingerprint) !in s.db.keys && id !in s.log.issued
    requires NobodyInside(s, BuildKey(identity, header, fingerprint))
    ensures t == Step(Step(Step(Step(s, Call(identity, header, fingerprint)), Own(s, Acked, id)), Own(s, Acked, id)),
                      Own(s, Lost, id))
    ensures Wedged(t, BuildKey(identity, header, fingerprint))
  {
    var k := BuildKey(identity, header, fingerprint);
    CallJoins(s, identity, header, fingerprint);
    t := Step(s, Call(identity, header, fingerprint));
    LooksUp(s, t, k, id);
    t := Step(t, Own(s, Acked, id));
    Acquires(s, t, k, id);
    t := Step(t, Own(s, Acked, id));
    ArmsInVain(s, t, k, id);
    t := Step(t, Own(s, Lost, id));
  }
}
