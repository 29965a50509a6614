/**
 * The game logic of the client (`ClientScript`): its caches of replicated
 * players and of team membership, the team lookup used by the tiles, the
 * handler that applies a relayed tile claim to the board, and the effect of
 * each phase message on the board and on character control.
 */
module Client {
  import opened Common
  import opened Protocol
  import opened JsText
  import opened Tiles
  import opened Board

  /** An entry of `gameTeamList`: a character's name (its user id) and its team. */
  datatype TeamEntry = TeamEntry(name: string, team: int)

  /** A call the client makes into the avatar system. */
  datatype CharacterOp = CreatePlayer(userId: string, isLocal: bool) | RemovePlayer(userId: string)

  function Names(entries: seq<TeamEntry>): (names: seq<string>)
    ensures |names| == |entries|
    ensures forall i :: 0 <= i < |entries| ==> names[i] == entries[i].name
  {
    seq(|entries|, i requires 0 <= i < |entries| => entries[i].name)
  }

  /** The keys of a JavaScript `Map` are distinct. */
  predicate UniqueNames(entries: seq<TeamEntry>) {
    forall i, j :: 0 <= i < j < |entries| ==> entries[i].name != entries[j].name
  }

  /** `Map.get` on the team list, in iteration order. */
  function Lookup(entries: seq<TeamEntry>, name: string): (r: Option<int>)
    ensures r.None? <==> forall i :: 0 <= i < |entries| ==> entries[i].name != name
    ensures r.Some? ==> exists i :: 0 <= i < |entries| && entries[i] == TeamEntry(name, r.value)
    ensures UniqueNames(entries) ==> forall i :: 0 <= i < |entries| && entries[i].name == name ==> r == Some(entries[i].team)
    decreases |entries|
  {
    if entries == [] then None
    else if entries[0].name == name then Some(entries[0].team)
    else
      var r := Lookup(entries[1..], name);
      assert forall i :: 1 <= i < |entries| ==> entries[i] == entries[1..][i - 1];
      r
  }

  /**
   * `Map.set` on the team list: a present key keeps its place and takes the
   * new team; a new key goes at the end of the iteration order.
   */
  function Put(entries: seq<TeamEntry>, name: string, team: int): (r: seq<TeamEntry>)
    ensures name in Names(entries) ==> Names(r) == Names(entries)
    ensures name !in Names(entries) ==> Names(r) == Names(entries) + [name]
    ensures forall i :: 0 <= i < |r| && r[i].name == name ==> r[i].team == team
    ensures forall i :: 0 <= i < |entries| && entries[i].name != name ==> r[i] == entries[i]
    ensures UniqueNames(entries) ==> UniqueNames(r)
  {
    if name in Names(entries) then
      seq(|entries|, i requires 0 <= i < |entries| =>
        if entries[i].name == name then TeamEntry(name, team) else entries[i])
    else
      entries + [TeamEntry(name, team)]
  }

  /**
   * The tile index a relayed claim names: `Number(groundName.split("_")[1])`.
   * None where that is NaN (no `_`, or a piece that is not a number).
   */
  function ParseGroundIndex(groundName: string): Option<nat> {
    var parts := Split(groundName, '_');
    if |parts| < 2 then None else NumberOf(parts[1])
  }

  /** A tile name from the board's `Ground_i` scheme reads back as index i. */
  lemma ParseGroundName(i: nat)
    ensures ParseGroundIndex(GroundName(i)) == Some(i)
  {
    var digits := NatToString(i);
    assert '_' !in digits by {
      forall k | 0 <= k < |digits| ensures digits[k] != '_' {
        assert IsDigit(digits[k]);
      }
    }
    assert GroundName(i) == "Ground" + ['_'] + digits;
    SplitAtSeparator("Ground", digits, '_');
    NumberOfNatToString(i);
  }

  class ClientScript {
    /** This client's own user id (`WorldService.userId`). */
    const localUserId: string
    var multiplayPlayers: map<string, Player>
    var gameTeamList: seq<TeamEntry>
    /** The movement settings of `characterData`. */
    var walkSpeed: int
    var runSpeed: int
    var jumpPower: int
    /** Every avatar creation and removal requested, oldest first. */
    var characterOps: seq<CharacterOp>

    ghost predicate Valid()
      reads this
    {
      UniqueNames(gameTeamList)
    }

    constructor (localUserId: string, walkSpeed: int, runSpeed: int, jumpPower: int)
      ensures Valid() && this.localUserId == localUserId
      ensures multiplayPlayers == map[] && gameTeamList == [] && characterOps == []
      ensures this.walkSpeed == walkSpeed && this.runSpeed == runSpeed && this.jumpPower == jumpPower
    {
      this.localUserId := localUserId;
      multiplayPlayers := map[];
      gameTeamList := [];
      this.walkSpeed := walkSpeed;
      this.runSpeed := runSpeed;
      this.jumpPower := jumpPower;
      characterOps := [];
    }

    /** The team of the character with this name, or 0 when the name is not in the team list. */
    function GetTeam(gameObjectName: string): (team: int)
      requires Valid()
      reads this
      ensures (forall i :: 0 <= i < |gameTeamList| ==> gameTeamList[i].name != gameObjectName) ==> team == 0
      ensures forall i :: 0 <= i < |gameTeamList| && gameTeamList[i].name == gameObjectName ==> team == gameTeamList[i].team
    {
      match Lookup(gameTeamList, gameObjectName)
      case None => 0
      case Some(t) => t
    }

    /** Records a loaded character's team under its name (the end of the `OnAddedPlayer` listener). */
    method RegisterTeam(name: string, team: int)
      requires Valid()
      modifies this`gameTeamList
      ensures gameTeamList == Put(old(gameTeamList), name, team) && Valid()
    {
      gameTeamList := Put(gameTeamList, name, team);
    }

    /** Caches a replicated player and asks for its avatar, unless that user id is already cached. */
    method OnPlayerAdd(player: Player, userId: string)
      modifies this`multiplayPlayers, this`characterOps
      ensures old(userId in multiplayPlayers) ==>
        multiplayPlayers == old(multiplayPlayers) && characterOps == old(characterOps)
      ensures old(userId !in multiplayPlayers) ==>
        && multiplayPlayers == old(multiplayPlayers)[userId := player]
        && characterOps == old(characterOps) + [CreatePlayer(userId, userId == localUserId)]
    {
      if userId in multiplayPlayers {
        return;
      }
      multiplayPlayers := multiplayPlayers[userId := player];
      var isLocal := localUserId == userId;
      characterOps := characterOps + [CreatePlayer(userId, isLocal)];
    }

    /** Asks for a cached player's avatar to be removed; the cache itself keeps the entry. */
    method OnPlayerRemove(player: Player, userId: string)
      modifies this`characterOps
      ensures characterOps == old(characterOps) + if userId in multiplayPlayers then [RemovePlayer(userId)] else []
    {
      if userId !in multiplayPlayers {
        return;
      }
      characterOps := characterOps + [RemovePlayer(userId)];
    }

    /** Movement on (walk 2, run 5, jump 5) or off (all 0). */
    method OnOffCharacterControl(on: bool)
      modifies this`walkSpeed, this`runSpeed, this`jumpPower
      ensures on ==> walkSpeed == 2 && runSpeed == 5 && jumpPower == 5
      ensures !on ==> walkSpeed == 0 && runSpeed == 0 && jumpPower == 0
    {
      if on {
        walkSpeed := 2;
        runSpeed := 5;
        jumpPower := 5;
      } else {
        walkSpeed := 0;
        runSpeed := 0;
        jumpPower := 0;
      }
    }

    /** The board part of `ResetGame`: every tile back to None. */
    method ResetGame(ground: GroundManager)
      modifies ground.groundList
      ensures forall i :: 0 <= i < |ground.groundList| ==>
        ground.groundList[i].groundType == NoneType && ground.groundList[i].material == NoneMaterial
      ensures forall i :: 0 <= i < |ground.groundList| ==> ground.groundList[i].name == old(ground.groundList[i].name)
    {
      ground.ResetGround();
    }

    /**
     * Applies a relayed claim: the tile whose index the name carries takes
     * the claim's team as its type (not the claim's `groundType`). A name
     * with no valid index reaches an undefined tile and the handler throws
     * before changing anything; `applied` is false then.
     */
    method OnChangeGroundColorReceive(message: GroundColorMsg, ground: GroundManager) returns (applied: bool)
      requires ground.Valid()
      modifies ground.groundList
      ensures var k := ParseGroundIndex(message.groundName);
        applied <==> k.Some? && k.value < |ground.groundList|
      ensures applied ==> var k := ParseGroundIndex(message.groundName).value;
        && ground.groundList[k].groundType == message.team
        && ground.groundList[k].material == MaterialFor(message.team).GetOr(old(ground.groundList[k].material))
        && forall j :: 0 <= j < |ground.groundList| && j != k ==>
             && ground.groundList[j].groundType == old(ground.groundList[j].groundType)
             && ground.groundList[j].material == old(ground.groundList[j].material)
      ensures !applied ==> forall j :: 0 <= j < |ground.groundList| ==>
        && ground.groundList[j].groundType == old(ground.groundList[j].groundType)
        && ground.groundList[j].material == old(ground.groundList[j].material)
      ensures forall j :: 0 <= j < |ground.groundList| ==> ground.groundList[j].name == old(ground.groundList[j].name)
    {
      var groundNumber := ParseGroundIndex(message.groundName);
      if groundNumber.None? || groundNumber.value >= |ground.groundList| {
        return false;
      }
      var tile := ground.groundList[groundNumber.value];
      tile.SetType(message.team);
      applied := true;
    }

    /** `Waiting`: clear the board, enable control. */
    method OnWaiting(ground: GroundManager)
      modifies this`walkSpeed, this`runSpeed, this`jumpPower, ground.groundList
      ensures forall i :: 0 <= i < |ground.groundList| ==>
        ground.groundList[i].groundType == NoneType && ground.groundList[i].material == NoneMaterial
      ensures forall i :: 0 <= i < |ground.groundList| ==> ground.groundList[i].name == old(ground.groundList[i].name)
      ensures walkSpeed == 2 && runSpeed == 5 && jumpPower == 5
    {
      ResetGame(ground);
      OnOffCharacterControl(true);
    }

    /** `GameReady`: clear the board, disable control. */
    method OnGameReady(ground: GroundManager)
      modifies this`walkSpeed, this`runSpeed, this`jumpPower, ground.groundList
      ensures forall i :: 0 <= i < |ground.groundList| ==>
        ground.groundList[i].groundType == NoneType && ground.groundList[i].material == NoneMaterial
      ensures forall i :: 0 <= i < |ground.groundList| ==> ground.groundList[i].name == old(ground.groundList[i].name)
      ensures walkSpeed == 0 && runSpeed == 0 && jumpPower == 0
    {
      ResetGame(ground);
      OnOffCharacterControl(false);
    }

    /** `GameStart`: clear the board, enable control. */
    method OnGameStart(ground: GroundManager)
      modifies this`walkSpeed, this`runSpeed, this`jumpPower, ground.groundList
      ensures forall i :: 0 <= i < |ground.groundList| ==>
        ground.groundList[i].groundType == NoneType && ground.groundList[i].material == NoneMaterial
      ensures forall i :: 0 <= i < |ground.groundList| ==> ground.groundList[i].name == old(ground.groundList[i].name)
      ensures walkSpeed == 2 && runSpeed == 5 && jumpPower == 5
    {
      ResetGame(ground);
      OnOffCharacterControl(true);
    }

    /** `GameFinish`: disable control; the board keeps its colours for the score. */
    method OnGameFinish()
      modifies this`walkSpeed, this`runSpeed, this`jumpPower
      ensures walkSpeed == 0 && runSpeed == 0 && jumpPower == 0
    {
      OnOffCharacterControl(false);
    }
  }

  /**
   * A user id that was removed stays cached, so its next add is ignored:
   * no second avatar is requested.
   */
  method RemoveThenAddIsIgnored(client: ClientScript, player: Player, userId: string)
    requires userId in client.multiplayPlayers
    modifies client
    ensures client.multiplayPlayers == old(client.multiplayPlayers)
    ensures client.characterOps == old(client.characterOps) + [RemovePlayer(userId)]
  {
    client.OnPlayerRemove(player, userId);
    client.OnPlayerAdd(player, userId);
  }
}
