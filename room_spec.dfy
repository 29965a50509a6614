/**
 * The authoritative room as a value: a snapshot of every field the server
 * keeps, and one function per handler and per tick step saying what that
 * handler leaves behind. The class in room.dfy is proved to follow these.
 */
module RoomSpec {
  import opened Protocol

  /** Players needed before the countdown to a game starts. */
  const GameStartCount: nat := 2
  /** Time in Wait, with enough players, before the game starts (ms). */
  const ReadyDelay: nat := 4000
  /** Length of a game (ms). */
  const GameDuration: nat := 60 * 1000
  /** Pause after the game ends before the result is shown (ms). */
  const FinishDelay: nat := 3 * 1000
  /** How long the result stays up before the room waits again (ms). */
  const ResultDuration: nat := 10 * 1000
  /** Seconds on the timer when a game starts. */
  const StartSeconds: int := 60

  datatype Phase = Wait | Game | Result

  /**
   * The room's state. `log` holds every broadcast so far, oldest first; all
   * times are whole milliseconds.
   */
  datatype RoomState = RoomState(
    players: map<string, Player>,
    gameState: Phase,
    currentPlayerCount: nat,
    gameTime: nat,
    resultTime: nat,
    timer: int,
    log: seq<ServerMsg>)

  /** A fresh room: waiting, no players, every counter at zero, nothing sent. */
  function Initial(): RoomState {
    RoomState(map[], Wait, 0, 0, 0, 0, [])
  }

  /** `onJoin`: a player at the origin whose team is one more than the players already present. */
  function Join(s: RoomState, userId: string): (r: RoomState)
    ensures r.players.Keys == s.players.Keys + {userId}
    ensures r.players[userId] == Player(userId, 0, Origin, |s.players| + 1)
    ensures forall v :: v in s.players && v != userId ==> r.players[v] == s.players[v]
    ensures r.(players := s.players) == s
  {
    s.(players := s.players[userId := Player(userId, 0, Origin, |s.players| + 1)])
  }

  /** `onLeave`: the leaving player's entry goes; nobody else's entry changes. */
  function Leave(s: RoomState, userId: string): (r: RoomState)
    ensures r.players.Keys == s.players.Keys - {userId}
    ensures forall v :: v in r.players ==> r.players[v] == s.players[v]
    ensures userId !in s.players ==> r == s
    ensures r.(players := s.players) == s
  {
    s.(players := s.players - {userId})
  }

  /** The `CharacterTransform` handler: an unknown sender is ignored. */
  function MoveTo(s: RoomState, userId: string, m: TransformMsg): (r: RoomState)
    ensures userId !in s.players ==> r == s
    ensures r.players.Keys == s.players.Keys
    ensures userId in s.players ==>
      && r.players[userId].position == Vec3(m.positionX, m.positionY, m.positionZ)
      && r.players[userId].(position := s.players[userId].position) == s.players[userId]
    ensures forall v :: v in s.players && v != userId ==> r.players[v] == s.players[v]
    ensures r.(players := s.players) == s
  {
    if userId !in s.players then s
    else s.(players := s.players[userId := s.players[userId].(position := Vec3(m.positionX, m.positionY, m.positionZ))])
  }

  /** The `CharacterState` handler; its lookup is unchecked, so the sender must be present. */
  function SetCharacterState(s: RoomState, userId: string, characterState: int): (r: RoomState)
    requires userId in s.players
    ensures r.players.Keys == s.players.Keys
    ensures r.players[userId].characterState == characterState
    ensures r.players[userId].(characterState := s.players[userId].characterState) == s.players[userId]
    ensures forall v :: v in s.players && v != userId ==> r.players[v] == s.players[v]
    ensures r.(players := s.players) == s
  {
    s.(players := s.players[userId := s.players[userId].(characterState := characterState)])
  }

  /** Appends one message to the broadcast log. */
  function Broadcast(s: RoomState, m: ServerMsg): RoomState {
    s.(log := s.log + [m])
  }

  /** The `ChangeGroundColor` handler: echo the payload, untouched, to everyone. */
  function RelayGroundColor(s: RoomState, m: GroundColorMsg): (r: RoomState)
    ensures r.log == s.log + [GroundColorReceive(m)]
    ensures r.(log := s.log) == s
  {
    Broadcast(s, GroundColorReceive(m))
  }

  function InitializeWait(s: RoomState): RoomState {
    Broadcast(s.(gameTime := 0), WaitingMsg)
  }

  function InitializeGame(s: RoomState): RoomState {
    Broadcast(s.(gameTime := 0, timer := StartSeconds), GameStartMsg)
  }

  function InitializeResult(s: RoomState): RoomState {
    Broadcast(s.(resultTime := 0), ResultMsg)
  }

  /** `SetGameState`: switch phase, then run that phase's initialiser. */
  function SetGameState(s: RoomState, p: Phase): (r: RoomState)
    ensures r.gameState == p
    ensures r.players == s.players && r.currentPlayerCount == s.currentPlayerCount
    ensures |r.log| == |s.log| + 1 && r.log[..|s.log|] == s.log
  {
    var s' := s.(gameState := p);
    match p
    case Wait => InitializeWait(s')
    case Game => InitializeGame(s')
    case Result => InitializeResult(s')
  }

  /**
   * The countdown shown during a game: whole seconds left, plus one, rounded
   * down. Dafny's `/` with a positive divisor rounds toward negative infinity,
   * like `Math.floor`, so this stays right once the value goes negative.
   */
  function TimerValue(gameTime: int): int {
    (GameDuration + 1000 - gameTime) / 1000
  }

  function UpdateWait(s: RoomState, dt: nat): RoomState {
    if s.gameState != Wait then s
    else
      var s1 := s.(currentPlayerCount := |s.players|);
      if s1.currentPlayerCount != GameStartCount then s1
      else
        var s2 := if s1.gameTime == 0 then Broadcast(s1, GameReadyMsg) else s1;
        var s3 := s2.(gameTime := s2.gameTime + dt);
        if s3.gameTime >= ReadyDelay then SetGameState(s3, Game) else s3
  }

  function UpdateGame(s: RoomState, dt: nat): RoomState {
    if s.gameState != Game then s
    else
      var s1 := s.(gameTime := s.gameTime + dt);
      var s2 := s1.(timer := TimerValue(s1.gameTime));
      var s3 := if s2.timer == 0 then Broadcast(s2, GameFinishMsg) else s2;
      if s3.gameTime >= GameDuration + FinishDelay then SetGameState(s3, Result) else s3
  }

  function UpdateResult(s: RoomState, dt: nat): RoomState {
    if s.gameState != Result then s
    else
      var s1 := s.(resultTime := s.resultTime + dt);
      if s1.resultTime >= ResultDuration then SetGameState(s1, Wait) else s1
  }

  /** `onTick`: the three phase updates in order, each seeing what the one before left. */
  function Tick(s: RoomState, dt: nat): RoomState {
    UpdateResult(UpdateGame(UpdateWait(s, dt), dt), dt)
  }
}
