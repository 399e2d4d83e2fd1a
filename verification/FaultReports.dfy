/** What a refusal is due to: a command that failed, or the state of the entry and of the queue. */
module FaultReports {
  import opened Basics
  import opened IdempotencyKeys
  import opened ClaimSystem
  import Frames
  import opened Registry
  import opened Replies

  // ---------------------------------------------------------------- failing commands

  /** The caller is on its way to answer, or has answered, that something failed. */
  predicate Failing(at: CreateAt) {
    || at == Compensate
    || (at.Release? && at.cause in {Failed, BackendError})
    || (at.Replied? && at.reply in {Refused(Failed), Refused(BackendError)})
  }

  /** Unless it has died, a caller is failing just when one of its commands was reported failed. */
  predicate Accounts(s: State, n: nat)
    requires n < |s.creators|
  {
    s.creators[n].at == Killed || (Failing(s.creators[n].at) <==> s.faults.failed[CreatorThread(n)] > 0)
  }

  ghost predicate AllAccount(s: State) {
    && (forall n | 0 <= n < |s.creators| :: Accounts(s, n))
    && forall n | n >= |s.creators| :: s.faults.failed[CreatorThread(n)] == 0
  }

  lemma CommandAccounts(s: State, c: Creator, o: Outcome)
    requires Placed(s, c) && c.at != Killed
    ensures Failing(NextCreateAt(s, c, o)) <==> Failing(c.at) || CreateFails(c, o)
  {
  }

  /** Only a caller's own commands are held against it. */
  lemma OthersFaults(s: State, a: Action, n: nat)
    requires Enabled(s, a) && !(a.Create? && a.creator == n)
    ensures Step(s, a).faults.failed[CreatorThread(n)] == s.faults.failed[CreatorThread(n)]
  {
  }

  lemma CreateAccounts(s: State, i: nat, o: Outcome, uuid: ClaimId)
    requires Registered(s) && AllAccount(s) && Enabled(s, Create(i, o, uuid))
    ensures AllAccount(CreateStep(s, i, o, uuid))
  {
    var t := CreateStep(s, i, o, uuid);
    CallerMoves(s, i, o, uuid);
    OwnAccounts(s, t, i, o);
    forall n: nat | n != i ensures t.faults.failed[CreatorThread(n)] == s.faults.failed[CreatorThread(n)] {
      OthersFaults(s, Create(i, o, uuid), n);
    }
    forall n | 0 <= n < |t.creators| ensures Accounts(t, n) {
      assert n != i ==> Accounts(s, n);
    }
  }

  lemma CallerMoves(s: State, i: nat, o: Outcome, uuid: ClaimId)
    requires Enabled(s, Create(i, o, uuid))
    ensures var c, t := s.creators[i], CreateStep(s, i, o, uuid);
            && |t.creators| == |s.creators| && t.creators[i].at == NextCreateAt(s, c, o)
            && (forall n | 0 <= n < |s.creators| && n != i :: t.creators[n] == s.creators[n])
            && t.faults.failed[CreatorThread(i)] ==
               s.faults.failed[CreatorThread(i)] + if CreateFails(c, o) then 1 else 0
  {
  }

  lemma OwnAccounts(s: State, t: State, i: nat, o: Outcome)
    requires Registered(s) && i < |s.creators| == |t.creators| && Accounts(s, i)
    requires t.creators[i].at == NextCreateAt(s, s.creators[i], o)
    requires t.faults.failed[CreatorThread(i)] ==
             s.faults.failed[CreatorThread(i)] + if CreateFails(s.creators[i], o) then 1 else 0
    ensures Accounts(t, i)
  {
    assert Placed(s, s.creators[i]);
    if s.creators[i].at != Killed {
      CommandAccounts(s, s.creators[i], o);
    }
  }

  lemma OtherAccounts(s: State, a: Action)
    requires AllAccount(s) && Enabled(s, a) && !a.Create?
    ensures AllAccount(Step(s, a))
  {
    var t := Step(s, a);
    if !a.Call? && !a.KillCreator? {
      Frames.OutsideFrames(s, a);
    }
    forall n: nat ensures t.faults.failed[CreatorThread(n)] == s.faults.failed[CreatorThread(n)] {
      OthersFaults(s, a, n);
    }
    forall n | 0 <= n < |t.creators| ensures Accounts(t, n) {
      if n < |s.creators| {
        assert Accounts(s, n);
      }
    }
  }

  lemma {:induction false} AlwaysAccount(limit: nat, actions: seq<Action>)
    ensures AllAccount(Run(Init(limit), actions))
  {
    if actions != [] {
      var front, a := actions[..|actions| - 1], actions[|actions| - 1];
      AlwaysAccount(limit, front);
      AlwaysRegistered(limit, front);
      var s := Run(Init(limit), front);
      if Enabled(s, a) {
        if a.Create? {
          CreateAccounts(s, a.creator, a.outcome, a.uuid);
        } else {
          OtherAccounts(s, a);
        }
      }
    }
  }

  // ---------------------------------------------------------------- claims that are not found

  /** Nobody is told that its claim was not found. */
  predicate NobodyMisses(s: State) {
    forall n | 0 <= n < |s.creators| ::
      s.creators[n].at != Release(NotFound) && s.creators[n].at != Replied(Refused(NotFound))
  }

  lemma EarlierColonFree(s: State, a: Action)
    requires IdentitiesColonFree(Step(s, a))
    ensures IdentitiesColonFree(s)
  {
    if Enabled(s, a) {
      var t := Step(s, a);
      if a.Create? {
        Frames.CreateFrames(s, a.creator, a.outcome, a.uuid);
      } else if !a.Call? && !a.KillCreator? {
        Frames.OutsideFrames(s, a);
      }
      assert |s.creators| <= |t.creators|;
      assert forall n | 0 <= n < |s.creators| :: t.creators[n].identity == s.creators[n].identity;
    }
  }

  lemma CommandFinds(s: State, i: nat, o: Outcome)
    requires Reachable(s) && IdentitiesColonFree(s) && i < |s.creators|
    requires s.creators[i].at != Release(NotFound) && s.creators[i].at != Replied(Refused(NotFound))
    ensures NextCreateAt(s, s.creators[i], o) != Release(NotFound)
    ensures NextCreateAt(s, s.creators[i], o) != Replied(Refused(NotFound))
  {
    if s.creators[i].at.Fetch? {
      ReplayFindsOwnClaim(s, i);
    }
  }

  lemma StepFinds(s: State, a: Action)
    requires Reachable(s) && IdentitiesColonFree(s) && NobodyMisses(s)
    ensures NobodyMisses(Step(s, a))
  {
    if Enabled(s, a) {
      if a.Create? {
        CommandFinds(s, a.creator, a.outcome);
        Frames.CreateFrames(s, a.creator, a.outcome, a.uuid);
      } else if !a.Call? && !a.KillCreator? {
        Frames.OutsideFrames(s, a);
      }
    }
  }

  lemma {:induction false} AlwaysFound(limit: nat, actions: seq<Action>)
    requires IdentitiesColonFree(Run(Init(limit), actions))
    ensures NobodyMisses(Run(Init(limit), actions))
  {
    if actions != [] {
      var front, a := actions[..|actions| - 1], actions[|actions| - 1];
      EarlierColonFree(Run(Init(limit), front), a);
      AlwaysFound(limit, front);
      StepFinds(Run(Init(limit), front), a);
    }
  }

  /** What a refusal is due to. "Failed" and a bare backend error mean that some command of this very call
      was reported failed, and every such failure ends in one of these two; with colon-free identities no
      claim is ever not found. What is left for a call without a failing command is to be told of a claim,
      to find the queue full, or to wait in vain. */
  lemma RefusedForAReason(s: State, i: nat)
    requires Reachable(s) && i < |s.creators| && s.creators[i].at.Replied?
    ensures s.faults.failed[CreatorThread(i)] > 0 <==>
              s.creators[i].at.reply in {Refused(Failed), Refused(BackendError)}
    ensures s.creators[i].at.reply == Refused(NotFound) ==> !IdentitiesColonFree(s)
  {
    var limit, actions :| s == Run(Init(limit), actions);
    AlwaysAccount(limit, actions);
    assert Accounts(s, i);
    if IdentitiesColonFree(s) {
      AlwaysFound(limit, actions);
    }
  }
}
