/**
 * The tile trigger (`GroundTrigger`): when a character steps on a tile, the
 * client asks the server to relay a claim, unless the tile already has the
 * character's team colour. The tile itself is only recoloured when the relayed
 * claim comes back.
 */
module Trigger {
  import opened Common
  import opened Protocol
  import opened Tiles
  import opened Client

  /** A touch claims a tile exactly when the tile's type differs from the toucher's team. */
  predicate Claims(groundType: int, team: int) {
    groundType != team
  }

  class GroundTrigger {
    /** The tile this trigger belongs to (its parent object). */
    const ground: Ground
    /** How many times the bounce animation has been triggered. */
    var bounces: nat

    constructor (ground: Ground)
      ensures this.ground == ground && bounces == 0
    {
      this.ground := ground;
      bounces := 0;
    }

    /**
     * A character named `toucherName` entered the tile. Returns the claim sent
     * to the server, if any; the tile bounces either way, and its type is
     * not changed here.
     */
    method OnTriggerEnter(client: ClientScript, toucherName: string) returns (sent: Option<GroundColorMsg>)
      requires client.Valid()
      modifies this`bounces
      ensures var team := client.GetTeam(toucherName);
        && (sent.Some? <==> Claims(ground.groundType, team))
        && (sent.Some? ==> sent.value == GroundColorMsg(ground.groundType, team, ground.name))
      ensures bounces == old(bounces) + 1
    {
      var myTeam := client.GetTeam(toucherName);
      var groundType := ground.GetType();
      var message := GroundColorMsg(groundType, myTeam, ground.name);
      if groundType != myTeam {
        sent := Some(message);
      } else {
        sent := None;
      }
      bounces := bounces + 1;
    }
  }

  /**
   * A character whose name is not in the team list counts as team 0, so on a
   * coloured tile it sends a claim for team 0.
   */
  method UnknownToucherClaimsForTeamZero(trigger: GroundTrigger, client: ClientScript, toucherName: string)
      returns (sent: Option<GroundColorMsg>)
    requires client.Valid()
    requires forall i :: 0 <= i < |client.gameTeamList| ==> client.gameTeamList[i].name != toucherName
    requires trigger.ground.groundType != NoneType
    modifies trigger
    ensures sent == Some(GroundColorMsg(trigger.ground.groundType, 0, trigger.ground.name))
  {
    sent := trigger.OnTriggerEnter(client, toucherName);
  }
}
