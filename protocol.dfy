/**
 * The shapes shared by the room server and its clients: the replicated player
 * record and the messages exchanged (the `MultiplayMessageType` tags and their
 * payload types, which the server and the client declare identically).
 */
module Protocol {

  /**
   * A position as a client reports it. The server never computes with it, it
   * only copies it, so the three floats are modelled as exact reals.
   */
  datatype Vec3 = Vec3(x: real, y: real, z: real)

  const Origin: Vec3 := Vec3(0.0, 0.0, 0.0)

  /** The replicated `Player` schema: identity, locomotion state, position and team. */
  datatype Player = Player(userId: string, characterState: int, position: Vec3, team: int)

  /** Payload of `CharacterTransform`. */
  datatype TransformMsg = TransformMsg(positionX: real, positionY: real, positionZ: real)

  /** Payload of `ChangeGroundColor`, and of its echo `ChangeGroundColorReceive`. */
  datatype GroundColorMsg = GroundColorMsg(groundType: int, team: int, groundName: string)

  /** Everything the server broadcasts to all clients. */
  datatype ServerMsg =
    | GroundColorReceive(payload: GroundColorMsg)
    | WaitingMsg
    | GameReadyMsg
    | GameStartMsg
    | GameFinishMsg
    | ResultMsg
}
