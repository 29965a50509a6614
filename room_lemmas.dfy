/**
 * What the room's handlers and its tick promise, proved about the functions
 * of RoomSpec: the phase invariant, each phase's tick, runs of ticks, and the
 * stability of team numbers over any run of events.
 */
module RoomProperties {
  import opened Protocol
  import opened RoomSpec

  /** The timer reads 0 exactly during the last second of the game, and is negative after it. */
  lemma TimerValueSigns(t: int)
    ensures TimerValue(t) == 0 <==> GameDuration < t <= GameDuration + 1000
    ensures TimerValue(t) > 0 <==> t <= GameDuration
    ensures GameDuration + 1000 < t < GameDuration + FinishDelay ==> TimerValue(t) in {-1, -2}
  {
  }

  /**
   * What holds of the room between ticks: a countdown in Wait has not yet
   * reached the ready delay, a game in progress has not reached its end and
   * shows the timer for its elapsed time, and a result has not timed out.
   */
  ghost predicate Inv(s: RoomState) {
    && (s.gameState == Wait ==> s.gameTime < ReadyDelay)
    && (s.gameState == Game ==> s.gameTime < GameDuration + FinishDelay && s.timer == TimerValue(s.gameTime))
    && (s.gameState == Result ==> s.resultTime < ResultDuration)
  }

  lemma InitialInv()
    ensures Inv(Initial())
  {
  }

  lemma TickPreservesInv(s: RoomState, dt: nat)
    requires Inv(s)
    ensures Inv(Tick(s, dt))
  {
  }

  /** A tick in Wait, when the player count is not exactly two: only the cached count changes. */
  lemma WaitTickUnderThreshold(s: RoomState, dt: nat)
    requires s.gameState == Wait && |s.players| != GameStartCount
    ensures Tick(s, dt) == s.(currentPlayerCount := |s.players|)
  {
  }

  /**
   * A tick in Wait with two players that stays short of the ready delay:
   * time advances, and GameReady goes out only if the countdown had not begun.
   */
  lemma WaitTickCounting(s: RoomState, dt: nat)
    requires s.gameState == Wait && |s.players| == GameStartCount
    requires s.gameTime + dt < ReadyDelay
    ensures Tick(s, dt) == s.(currentPlayerCount := GameStartCount, gameTime := s.gameTime + dt,
                              log := s.log + if s.gameTime == 0 then [GameReadyMsg] else [])
  {
  }

  /**
   * The tick that reaches the ready delay starts the game, and the game
   * update then runs in the same tick with the same delta: the game's
   * elapsed time is that delta and the timer already counts it.
   */
  lemma WaitTickStartsGame(s: RoomState, dt: nat)
    requires s.gameState == Wait && |s.players| == GameStartCount
    requires s.gameTime + dt >= ReadyDelay && dt <= GameDuration
    ensures Tick(s, dt) == s.(currentPlayerCount := GameStartCount, gameState := Game, gameTime := dt,
                              timer := TimerValue(dt),
                              log := s.log + (if s.gameTime == 0 then [GameReadyMsg] else []) + [GameStartMsg])
  {
  }

  /**
   * A tick in Game that does not reach the end: time advances, the timer is
   * recomputed, and GameFinish goes out on every such tick whose timer is 0.
   */
  lemma GameTickPlaying(s: RoomState, dt: nat)
    requires s.gameState == Game && s.gameTime + dt < GameDuration + FinishDelay
    ensures Tick(s, dt) == s.(gameTime := s.gameTime + dt, timer := TimerValue(s.gameTime + dt),
                              log := s.log + if TimerValue(s.gameTime + dt) == 0 then [GameFinishMsg] else [])
  {
  }

  /** The tick that reaches the end of the game shows the result; the result update then counts the same delta. */
  lemma GameTickEnds(s: RoomState, dt: nat)
    requires s.gameState == Game && s.gameTime + dt >= GameDuration + FinishDelay && dt < ResultDuration
    ensures Tick(s, dt) == s.(gameState := Result, gameTime := s.gameTime + dt, resultTime := dt,
                              timer := TimerValue(s.gameTime + dt), log := s.log + [ResultMsg])
  {
  }

  /**
   * A tick in Result: the result timer advances, and once it reaches the
   * result duration the room waits again with its game time at 0. The
   * timer keeps its last value: entering Wait does not reset it.
   */
  lemma ResultTick(s: RoomState, dt: nat)
    requires s.gameState == Result
    ensures s.resultTime + dt < ResultDuration ==> Tick(s, dt) == s.(resultTime := s.resultTime + dt)
    ensures s.resultTime + dt >= ResultDuration ==>
      Tick(s, dt) == s.(gameState := Wait, resultTime := s.resultTime + dt, gameTime := 0, log := s.log + [WaitingMsg])
  {
  }

  /** No tick changes the players. */
  lemma TickKeepsPlayers(s: RoomState, dt: nat)
    ensures Tick(s, dt).players == s.players
  {
  }

  // ---------------------------------------------------------------------------
  // Runs of ticks

  function Sum(dts: seq<nat>): nat {
    if dts == [] then 0 else dts[0] + Sum(dts[1..])
  }

  predicate AllPositive(dts: seq<nat>) {
    forall i :: 0 <= i < |dts| ==> dts[i] > 0
  }

  /** The room after one tick per delta, in order. */
  function Ticks(s: RoomState, dts: seq<nat>): RoomState
    decreases |dts|
  {
    if dts == [] then s else Ticks(Tick(s, dts[0]), dts[1..])
  }

  lemma {:induction false} TicksSnoc(s: RoomState, dts: seq<nat>, last: nat)
    ensures Ticks(s, dts + [last]) == Tick(Ticks(s, dts), last)
    decreases |dts|
  {
    if dts != [] {
      assert (dts + [last])[1..] == dts[1..] + [last];
      TicksSnoc(Tick(s, dts[0]), dts[1..], last);
    }
  }

  /**
   * With two players in Wait, the room keeps waiting for as long as the
   * deltas add up to less than the ready delay; GameReady goes out once, on
   * the first tick, if the countdown had not begun.
   */
  lemma {:induction false} ReadyCountdown(s: RoomState, dts: seq<nat>)
    requires s.gameState == Wait && |s.players| == GameStartCount
    requires AllPositive(dts) && s.gameTime + Sum(dts) < ReadyDelay
    ensures Ticks(s, dts).gameState == Wait
    ensures Ticks(s, dts).gameTime == s.gameTime + Sum(dts)
    ensures Ticks(s, dts).players == s.players && Ticks(s, dts).timer == s.timer
    ensures Ticks(s, dts).log == s.log + if s.gameTime == 0 && dts != [] then [GameReadyMsg] else []
    decreases |dts|
  {
    if dts != [] {
      var s1 := Tick(s, dts[0]);
      WaitTickCounting(s, dts[0]);
      assert AllPositive(dts[1..]) by {
        forall i | 0 <= i < |dts[1..]| ensures dts[1..][i] > 0 {
          assert dts[1..][i] == dts[i + 1];
        }
      }
      ReadyCountdown(s1, dts[1..]);
      assert s1.gameTime > 0;
    }
  }

  /**
   * Starting a countdown from zero with two players, the game starts on the
   * tick at which the deltas first add up to the ready delay, and not before
   * (ReadyCountdown): exactly GameReady then GameStart have gone out.
   */
  lemma GameStartsAfterReadyDelay(s: RoomState, dts: seq<nat>, last: nat)
    requires s.gameState == Wait && |s.players| == GameStartCount && s.gameTime == 0
    requires AllPositive(dts) && 0 < last <= GameDuration
    requires Sum(dts) < ReadyDelay <= Sum(dts) + last
    ensures Ticks(s, dts + [last]).gameState == Game
    ensures Ticks(s, dts + [last]).gameTime == last
    ensures Ticks(s, dts + [last]).timer == TimerValue(last)
    ensures Ticks(s, dts + [last]).log == s.log + [GameReadyMsg, GameStartMsg]
  {
    TicksSnoc(s, dts, last);
    ReadyCountdown(s, dts);
    var w := Ticks(s, dts);
    WaitTickStartsGame(w, last);
  }

  /** The GameFinish messages that ticks of the given deltas send from a game at elapsed time `g`. */
  function FinishMessages(g: nat, dts: seq<nat>): seq<ServerMsg>
    decreases |dts|
  {
    if dts == [] then []
    else (if TimerValue(g + dts[0]) == 0 then [GameFinishMsg] else []) + FinishMessages(g + dts[0], dts[1..])
  }

  /**
   * While a game runs, each tick advances its time and sets the timer from it;
   * the only broadcasts are the GameFinish messages of the ticks whose timer is 0.
   */
  lemma {:induction false} PlayingCountdown(s: RoomState, dts: seq<nat>)
    requires s.gameState == Game && s.gameTime + Sum(dts) < GameDuration + FinishDelay
    ensures Ticks(s, dts).gameState == Game
    ensures Ticks(s, dts).gameTime == s.gameTime + Sum(dts)
    ensures dts != [] ==> Ticks(s, dts).timer == TimerValue(s.gameTime + Sum(dts))
    ensures Ticks(s, dts).players == s.players
    ensures Ticks(s, dts).log == s.log + FinishMessages(s.gameTime, dts)
    decreases |dts|
  {
    if dts != [] {
      GameTickPlaying(s, dts[0]);
      PlayingCountdown(Tick(s, dts[0]), dts[1..]);
    }
  }

  /**
   * When no tick is longer than a second, a game that runs past the end of
   * its last second has sent at least one GameFinish.
   */
  lemma {:induction false} FinishNotSkipped(g: nat, dts: seq<nat>)
    requires g <= GameDuration
    requires forall i :: 0 <= i < |dts| ==> dts[i] <= 1000
    requires g + Sum(dts) > GameDuration + 1000
    ensures GameFinishMsg in FinishMessages(g, dts)
    decreases |dts|
  {
    assert dts != [];
    var g1 := g + dts[0];
    TimerValueSigns(g1);
    if g1 <= GameDuration {
      FinishNotSkipped(g1, dts[1..]);
    }
  }

  /** A single tick longer than a second can jump over the zero second: no GameFinish is sent. */
  lemma FinishSkippedByLongTick(s: RoomState)
    requires s.gameState == Game && s.gameTime == GameDuration
    ensures Tick(s, 1500).gameState == Game && Tick(s, 1500).timer == -1
    ensures Tick(s, 1500).log == s.log
  {
  }

  // ---------------------------------------------------------------------------
  // Runs of events

  /** Everything the host can deliver to a room. */
  datatype Event =
    | Joined(userId: string)
    | Left(userId: string)
    | Moved(userId: string, transform: TransformMsg)
    | StateChanged(userId: string, characterState: int)
    | GroundClaimed(claim: GroundColorMsg)
    | Ticked(dt: nat)

  /**
   * One event. A `CharacterState` message from an absent sender makes the
   * handler's unchecked lookup throw before it writes anything, so the room
   * is left as it was.
   */
  function Apply(s: RoomState, e: Event): RoomState {
    match e
    case Joined(u) => Join(s, u)
    case Left(u) => Leave(s, u)
    case Moved(u, m) => MoveTo(s, u, m)
    case StateChanged(u, c) => if u in s.players then SetCharacterState(s, u, c) else s
    case GroundClaimed(m) => RelayGroundColor(s, m)
    case Ticked(dt) => Tick(s, dt)
  }

  function Run(s: RoomState, evs: seq<Event>): RoomState
    decreases |evs|
  {
    if evs == [] then s else Run(Apply(s, evs[0]), evs[1..])
  }

  /**
   * A player's team is fixed at join time: whatever else happens, and
   * whoever else joins or leaves, it stays until that player leaves or
   * joins again.
   */
  lemma {:induction false} TeamStable(s: RoomState, evs: seq<Event>, u: string)
    requires u in s.players
    requires Joined(u) !in evs && Left(u) !in evs
    ensures u in Run(s, evs).players
    ensures Run(s, evs).players[u].team == s.players[u].team
    ensures Run(s, evs).players[u].userId == s.players[u].userId
    decreases |evs|
  {
    if evs != [] {
      var s1 := Apply(s, evs[0]);
      if evs[0].Ticked? {
        TickKeepsPlayers(s, evs[0].dt);
      }
      assert u in s1.players && s1.players[u].team == s.players[u].team && s1.players[u].userId == s.players[u].userId;
      assert evs == [evs[0]] + evs[1..];
      TeamStable(s1, evs[1..], u);
    }
  }

  /**
   * Teams are not renumbered when a player leaves, so a later join can
   * receive a team number that a remaining player already holds.
   */
  lemma LeaveThenJoinRepeatsTeam()
    ensures var r := Run(Initial(), [Joined("a"), Joined("b"), Left("a"), Joined("c")]);
      r.players["b"].team == 2 && r.players["c"].team == 2
  {
  }
}
