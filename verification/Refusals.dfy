/** What a refusal means: the claim was not made, except when the caller's own slip left it behind. */
module Refusals {
  import opened Basics
  import opened IdempotencyKeys
  import opened ClaimSystem
  import Frames
  import opened Registry

  predicate Refusing(at: CreateAt) {
    at.Release? || (at.Replied? && at.reply.Refused?)
  }

  predicate HasRow(c: Creator, live: set<ClaimId>) {
    c.claim.Some? && c.claim.value in live
  }

  /** A caller that is being refused has a row just when it slipped. A slip is a lapse of its key, and
      only ever leads to a refusal. */
  predicate ExplainedBy(c: Creator, live: set<ClaimId>, slipped: bool, lapses: nat) {
    && (Refusing(c.at) ==> (HasRow(c, live) <==> slipped))
    && (slipped ==> (Refusing(c.at) || c.at.Killed?) && HasRow(c, live) && lapses >= 1)
  }

  /** The caller's claim exists. */
  predicate LeavesRow(s: State, i: nat)
    requires i < |s.creators|
  {
    HasRow(s.creators[i], s.db.rows.Keys)
  }

  predicate Explained(s: State, i: nat)
    requires i < |s.creators|
  {
    ExplainedBy(s.creators[i], s.db.rows.Keys, i in s.log.slipped, s.log.lapses[s.creators[i].key])
  }

  /** What one command of a caller leaves. */
  lemma CommandExplained(s: State, c: Creator, o: Outcome, uuid: ClaimId, slipped: bool, lapses: nat)
    requires Placed(s, c) && s.db.rows.Keys <= s.log.history.Keys
    requires ExplainedBy(c, s.db.rows.Keys, slipped, lapses)
    ensures ExplainedBy(NextCreator(s, c, o, uuid), RowsAfterCreate(s.db.rows, c, o).Keys, slipped || Slips(c, o),
                        lapses + if Slips(c, o) then 1 else 0)
  {
    SlipRefuses(s, c, o);
    if Refusing(c.at) {
      RefusalStands(s, c, o);
    } else if Refusing(NextCreateAt(s, c, o)) {
      RowOfCaller(s, c, o);
    }
  }

  lemma OwnExplained(s: State, i: nat, o: Outcome, uuid: ClaimId)
    requires Registered(s) && Enabled(s, Create(i, o, uuid)) && Explained(s, i)
    ensures Explained(CreateStep(s, i, o, uuid), i)
  {
    var c := s.creators[i];
    assert Placed(s, c);
    CommandExplained(s, c, o, uuid, i in s.log.slipped, s.log.lapses[c.key]);
  }

  lemma SlipRefuses(s: State, c: Creator, o: Outcome)
    ensures Slips(c, o) ==> !Refusing(c.at) && !c.at.Killed? && Refusing(NextCreateAt(s, c, o))
  {
  }

  lemma RefusalStands(s: State, c: Creator, o: Outcome)
    requires Refusing(c.at)
    ensures Refusing(NextCreateAt(s, c, o)) && RowsAfterCreate(s.db.rows, c, o) == s.db.rows
  {
  }

  /** When a command turns a caller away, its row is there just when the command was a slip. */
  lemma RowOfCaller(s: State, c: Creator, o: Outcome)
    requires Placed(s, c) && s.db.rows.Keys <= s.log.history.Keys && !Refusing(c.at)
    requires Refusing(NextCreateAt(s, c, o))
    ensures c.claim.Some? ==> (c.claim.value in RowsAfterCreate(s.db.rows, c, o) <==> Slips(c, o))
    ensures c.claim.None? ==> !Slips(c, o)
  {
  }

  lemma OthersExplained(s: State, i: nat, o: Outcome, uuid: ClaimId, n: nat)
    requires Registered(s) && Enabled(s, Create(i, o, uuid)) && n < |s.creators| && n != i && Explained(s, n)
    ensures Explained(CreateStep(s, i, o, uuid), n)
  {
    assert Placed(s, s.creators[i]) && Placed(s, s.creators[n]);
  }

  lemma QuietExplained(s: State, t: State, n: nat)
    requires n < |s.creators| <= |t.creators| && Explained(s, n)
    requires t.creators[n] == s.creators[n] || t.creators[n] == s.creators[n].(at := Killed)
    requires t.db.rows.Keys == s.db.rows.Keys && t.log.slipped == s.log.slipped
    requires s.log.lapses[s.creators[n].key] <= t.log.lapses[s.creators[n].key]
    ensures Explained(t, n)
  {
  }

  predicate AllExplained(s: State) {
    && (forall n | 0 <= n < |s.creators| :: Explained(s, n))
    && forall n | n in s.log.slipped :: n < |s.creators|
  }

  lemma CreateExplains(s: State, i: nat, o: Outcome, uuid: ClaimId)
    requires Registered(s) && Enabled(s, Create(i, o, uuid)) && AllExplained(s)
    ensures AllExplained(CreateStep(s, i, o, uuid))
  {
    var t := CreateStep(s, i, o, uuid);
    forall n | 0 <= n < |t.creators| ensures Explained(t, n) {
      if n == i {
        OwnExplained(s, i, o, uuid);
      } else {
        OthersExplained(s, i, o, uuid, n);
      }
    }
  }

  lemma CallExplains(s: State, identity: Text, header: Option<Text>, fingerprint: Text)
    requires AllExplained(s)
    ensures AllExplained(CallStep(s, identity, header, fingerprint))
  {
    var t := CallStep(s, identity, header, fingerprint);
    forall n | 0 <= n < |t.creators| ensures Explained(t, n) {
      if n < |s.creators| {
        QuietExplained(s, t, n);
      }
    }
  }

  lemma OtherExplains(s: State, a: Action)
    requires AllExplained(s) && Enabled(s, a) && !a.Create? && !a.Call?
    ensures AllExplained(Step(s, a))
  {
    var t := Step(s, a);
    if !a.KillCreator? {
      Frames.OutsideFrames(s, a);
    }
    SlipsStay(s, a);
    forall n | 0 <= n < |t.creators| ensures Explained(t, n) {
      QuietExplained(s, t, n);
    }
  }

  lemma SlipsStay(s: State, a: Action)
    requires Enabled(s, a) && !a.Create?
    ensures Step(s, a).log.slipped == s.log.slipped
  {
  }

  lemma StepExplains(s: State, a: Action)
    requires Registered(s) && AllExplained(s)
    ensures AllExplained(Step(s, a))
  {
    if Enabled(s, a) {
      if a.Create? {
        CreateExplains(s, a.creator, a.outcome, a.uuid);
      } else if a.Call? {
        CallExplains(s, a.identity, a.header, a.fingerprint);
      } else {
        OtherExplains(s, a);
      }
    }
  }

  lemma {:induction false} AlwaysExplained(limit: nat, actions: seq<Action>)
    ensures AllExplained(Run(Init(limit), actions))
  {
    if actions != [] {
      var front := actions[..|actions| - 1];
      AlwaysExplained(limit, front);
      AlwaysRegistered(limit, front);
      StepExplains(Run(Init(limit), front), actions[|actions| - 1]);
    }
  }

  /** A caller that is refused, or about to be, has left a claim behind if and only if it slipped: its
      insert or its completion was reported failed, or its compensating delete was not done. So while
      its key has not lapsed, a refusal means that the claim does not exist. */
  lemma RefusedExactlyWithoutClaim(s: State, i: nat)
    requires Reachable(s) && i < |s.creators| && Refusing(s.creators[i].at)
    ensures LeavesRow(s, i) <==> i in s.log.slipped
    ensures s.log.lapses[s.creators[i].key] == 0 ==> !LeavesRow(s, i)
  {
    var limit, actions :| s == Run(Init(limit), actions);
    AlwaysExplained(limit, actions);
    assert Explained(s, i);
  }
}
