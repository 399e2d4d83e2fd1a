/** Whole runs from the empty system that end in claims nobody will finish. */
module Scenarios {
  import opened Basics
  import opened IdempotencyKeys
  import opened ClaimSystem
  import Runs
  import Creations
  import Stranding
  import Finishing
  import Abandonment
  import Tokens

  /** Any request to the empty system can end up as a queued claim, a stranded one, or one that is
      abandoned, with its row untouched and its payload stored. */
  lemma QueuedFromStart(limit: nat, identity: Text, header: Option<Text>, fingerprint: Text, id: ClaimId)
    returns (actions: seq<Action>)
    requires limit > 0
    ensures var s := Run(Init(limit), actions);
            Reachable(s) && Abandonment.Queued(s, id) && s.updaters == [] && s.log.redelivered == multiset{}
  {
    actions := Creations.CreateSucceeds(Init(limit), identity, header, fingerprint, id);
    Tokens.AlwaysPayloads(limit, actions);
  }

  lemma StrandedFromStart(limit: nat, identity: Text, header: Option<Text>, fingerprint: Text, id: ClaimId)
    returns (actions: seq<Action>)
    requires limit > 0
    ensures Stranding.Stranded(Run(Init(limit), actions), id) && Run(Init(limit), actions).updaters == []
  {
    var create := QueuedFromStart(limit, identity, header, fingerprint, id);
    var fail := Abandonment.StrandedReached(Run(Init(limit), create), id);
    actions := create + fail;
    Runs.RunConcat(Init(limit), create, fail);
  }

  lemma AbandonedFromStart(limit: nat, identity: Text, header: Option<Text>, fingerprint: Text, id: ClaimId)
    returns (actions: seq<Action>)
    requires limit > 0
    ensures var s := Run(Init(limit), actions);
            && Finishing.Deliverable(s, id) && Abandonment.Spent(s, id)
            && s.updaters == [] && s.log.redelivered == multiset{}
  {
    var create := QueuedFromStart(limit, identity, header, fingerprint, id);
    var stop := Abandonment.AbandonedReached(Run(Init(limit), create), id);
    actions := create + stop;
    Runs.RunConcat(Init(limit), create, stop);
  }
}
