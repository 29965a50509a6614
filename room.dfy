/**
 * The authoritative room server: the player registry, the message handlers
 * and the tick-driven phase machine, over the room's own mutable fields.
 * Every broadcast is an append to `log`. Each method is proved to leave
 * exactly the state that the matching RoomSpec function describes, and the
 * handlers that the host calls keep the phase invariant.
 */
module RoomServer {
  import opened Protocol
  import RoomSpec
  import RoomProperties

  class Room {
    var players: map<string, Player>
    var gameState: RoomSpec.Phase
    var currentPlayerCount: nat
    var gameTime: nat
    var resultTime: nat
    var timer: int
    var log: seq<ServerMsg>

    /** The room's fields as one value. */
    function Snapshot(): RoomSpec.RoomState
      reads this
    {
      RoomSpec.RoomState(players, gameState, currentPlayerCount, gameTime, resultTime, timer, log)
    }

    ghost predicate Valid()
      reads this
    {
      RoomProperties.Inv(Snapshot())
    }

    constructor ()
      ensures Snapshot() == RoomSpec.Initial() && Valid()
    {
      players := map[];
      gameState := RoomSpec.Wait;
      currentPlayerCount := 0;
      gameTime := 0;
      resultTime := 0;
      timer := 0;
      log := [];
    }

    method OnCharacterTransform(userId: string, message: TransformMsg)
      requires Valid()
      modifies this
      ensures Snapshot() == RoomSpec.MoveTo(old(Snapshot()), userId, message) && Valid()
    {
      if userId !in players {
        return;
      }
      var player := players[userId];
      var position := Vec3(message.positionX, message.positionY, message.positionZ);
      players := players[userId := player.(position := position)];
    }

    method OnCharacterState(userId: string, characterState: int)
      requires Valid() && userId in players
      modifies this
      ensures Snapshot() == RoomSpec.SetCharacterState(old(Snapshot()), userId, characterState) && Valid()
    {
      var player := players[userId];
      players := players[userId := player.(characterState := characterState)];
    }

    method OnChangeGroundColor(message: GroundColorMsg)
      requires Valid()
      modifies this
      ensures Snapshot() == RoomSpec.RelayGroundColor(old(Snapshot()), message) && Valid()
    {
      log := log + [GroundColorReceive(message)];
    }

    method OnJoin(userId: string)
      requires Valid()
      modifies this
      ensures Snapshot() == RoomSpec.Join(old(Snapshot()), userId) && Valid()
    {
      var player := Player(userId, 0, Origin, |players| + 1);
      players := players[userId := player];
    }

    method OnLeave(userId: string)
      requires Valid()
      modifies this
      ensures Snapshot() == RoomSpec.Leave(old(Snapshot()), userId) && Valid()
    {
      players := players - {userId};
    }

    method InitializeWait()
      modifies this
      ensures Snapshot() == RoomSpec.InitializeWait(old(Snapshot()))
    {
      gameTime := 0;
      SendMessageWaiting();
    }

    method InitializeGame()
      modifies this
      ensures Snapshot() == RoomSpec.InitializeGame(old(Snapshot()))
    {
      gameTime := 0;
      timer := RoomSpec.StartSeconds;
      SendMessageGameStart();
    }

    method InitializeResult()
      modifies this
      ensures Snapshot() == RoomSpec.InitializeResult(old(Snapshot()))
    {
      resultTime := 0;
      SendMessageResult();
    }

    method UpdateWait(deltaTime: nat)
      modifies this
      ensures Snapshot() == RoomSpec.UpdateWait(old(Snapshot()), deltaTime)
    {
      if gameState != RoomSpec.Wait {
        return;
      }
      currentPlayerCount := |players|;
      if currentPlayerCount == RoomSpec.GameStartCount {
        if gameTime == 0 {
          SendMessageGameReady();
        }
        gameTime := gameTime + deltaTime;
        if gameTime >= RoomSpec.ReadyDelay {
          SetGameState(RoomSpec.Game);
        }
      }
    }

    method UpdateGame(deltaTime: nat)
      modifies this
      ensures Snapshot() == RoomSpec.UpdateGame(old(Snapshot()), deltaTime)
    {
      if gameState != RoomSpec.Game {
        return;
      }
      gameTime := gameTime + deltaTime;
      timer := (RoomSpec.GameDuration + 1000 - gameTime) / 1000;
      if timer == 0 {
        SendMessageGameFinish();
      }
      if gameTime >= RoomSpec.GameDuration + RoomSpec.FinishDelay {
        SetGameState(RoomSpec.Result);
      }
    }

    method UpdateResult(deltaTime: nat)
      modifies this
      ensures Snapshot() == RoomSpec.UpdateResult(old(Snapshot()), deltaTime)
    {
      if gameState != RoomSpec.Result {
        return;
      }
      resultTime := resultTime + deltaTime;
      if resultTime >= RoomSpec.ResultDuration {
        SetGameState(RoomSpec.Wait);
      }
    }

    method OnTick(deltaTime: nat)
      requires Valid()
      modifies this
      ensures Snapshot() == RoomSpec.Tick(old(Snapshot()), deltaTime) && Valid()
    {
      UpdateWait(deltaTime);
      UpdateGame(deltaTime);
      UpdateResult(deltaTime);
      RoomProperties.TickPreservesInv(old(Snapshot()), deltaTime);
    }

    method SetGameState(state: RoomSpec.Phase)
      modifies this
      ensures Snapshot() == RoomSpec.SetGameState(old(Snapshot()), state)
    {
      gameState := state;
      match state
      case Wait => InitializeWait();
      case Game => InitializeGame();
      case Result => InitializeResult();
    }

    method SendMessageWaiting()
      modifies this`log
      ensures log == old(log) + [WaitingMsg]
    {
      log := log + [WaitingMsg];
    }

    method SendMessageGameReady()
      modifies this`log
      ensures log == old(log) + [GameReadyMsg]
    {
      log := log + [GameReadyMsg];
    }

    method SendMessageGameStart()
      modifies this`log
      ensures log == old(log) + [GameStartMsg]
    {
      log := log + [GameStartMsg];
    }

    method SendMessageGameFinish()
      modifies this`log
      ensures log == old(log) + [GameFinishMsg]
    {
      log := log + [GameFinishMsg];
    }

    method SendMessageResult()
      modifies this`log
      ensures log == old(log) + [ResultMsg]
    {
      log := log + [ResultMsg];
    }
  }
}
