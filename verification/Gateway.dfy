/** The WebSocket gateway's room joins. */
module Gateway {
  import opened Basics
  import opened IdempotencyKeys
  import opened ClaimSystem
  import opened World
  import Rooms
  import ClaimServices

  class ClaimGateway {
    const world: ClaimWorld
    const claims: ClaimServices.ClaimService

    constructor (claims: ClaimServices.ClaimService)
      ensures this.claims == claims && world == claims.world
    {
      this.claims := claims;
      this.world := claims.world;
    }

    /** Join the claim's room after an ownership check. Whatever happens in between, other requests of
        the same socket included, the socket is then only in rooms of claims its own identity created;
        a positive answer means that it is in this one. A negative one is due to a failing command, or to a
        claim that is not there for this identity. */
    method HandleJoinRoom(n: nat, claimId: ClaimId) returns (joined: Result<ClaimId>, ghost j: nat)
      requires claims.world == world && world.Valid() && n < |world.system.sockets|
      modifies world, world.redis, world.table
      ensures world.Valid() && n < |world.system.sockets| && j < |world.system.joiners|
      ensures world.system.sockets[n].identity == old(world.system).sockets[n].identity
      ensures world.system.joiners[j] ==
              Joiner(n, world.system.sockets[n].identity, claimId, Ended(joined.Done?))
      ensures joined.Done? ==> joined.value == claimId && claimId in world.system.sockets[n].rooms
      ensures joined.Done? ==> world.Faulted(JoinThread(j), false)
      ensures joined.Error? ==>
                || world.Faulted(JoinThread(j), true)
                || !(claimId in world.table.rows
                     && world.table.rows[claimId].owner == world.system.sockets[n].identity)
      ensures forall id | id in world.system.sockets[n].rooms ::
                Rooms.CreatedBy(world.system, id, world.system.sockets[n].identity)
    {
      var identity := world.system.sockets[n].identity;
      j := |world.system.joiners|;
      var me := |world.system.joiners|;
      world.Record(AskJoin(n, claimId));
      var claim := claims.GetClaim(JoinThread(me), claimId, identity);
      if claim.Error? || claim.value.None? {
        joined := Error;
      } else {
        joined := JoinRoom(me, claimId);
      }
      Rooms.AlwaysCleared(world.system.limit, world.trace);
      assert Rooms.JoinerCleared(world.system, world.system.joiners[j]);
      assert Rooms.SocketCleared(world.system, world.system.sockets[n]);
    }

    /** `client.join`, once ownership has been confirmed. */
    method JoinRoom(j: nat, claimId: ClaimId) returns (joined: Result<ClaimId>)
      requires world.Valid() && j < |world.system.joiners|
      requires world.system.joiners[j].at.Entering? && world.system.joiners[j].id == claimId
      modifies world, world.redis, world.table
      ensures world.Valid() && j < |world.system.joiners|
      ensures world.system.joiners[j] == old(world.system).joiners[j].(at := Ended(joined.Done?))
      ensures joined.Done? ==> joined.value == claimId
      ensures world.Faulted(JoinThread(j), joined.Error?)
      ensures joined.Done? && world.system.joiners[j].socket < |world.system.sockets| ==>
                claimId in world.system.sockets[world.system.joiners[j].socket].rooms
    {
      world.Await(JoinThread(j));
      var o: Outcome := *;
      world.Record(Join(j, o));
      joined := Answer(o, claimId);
    }
  }
}
