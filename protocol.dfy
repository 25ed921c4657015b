/** Values exchanged between the embedded game, the SDK object built by the
    `PG` constructor, and the hosting platform.  Shared by both copies of the
    SDK (the development source and the v0.1.2 release build). */
module Protocol {

  datatype Option<+T> = None | Some(value: T)

  /** A player identifier; the resolver compares it with strict equality. */
  type Id = int

  /** An opaque blob the SDK only carries around (move details, evaluation
      results, profiles, key names, device types). */
  type Payload = string

  /** A function supplied by the game.  Its body is never inspected, so the
      model only records which one was chosen. */
  type Handler = nat

  datatype Player = Player(id: Id, profile: Payload)

  /** The `player` / `opponent` closure variables: undefined until the first
      `matchPrepare`, and replaced together by every `matchPrepare`. */
  datatype Context = Context(player: Option<Player>, opponent: Option<Player>)

  const NoMatch: Context := Context(None, None)

  datatype GameResult = Won | Lost | Draw

  /** What can be thrown out of the message listener. */
  datatype Error =
    | NotImplemented(slot: string)  // a default callback stub ran: "<slot> is not implemented."
    | TypeError                     // `.id` read from an undefined player, or `.type` from absent data

  datatype Result<+T> = Ok(value: T) | Err(error: Error)

  /** The `data` of an inbound message event.  Every field but the tag may be
      undefined (`None`); an envelope without a `type` is one whose tag
      matches no case.  `None` is undefined only: a null winner id is
      written `Some(w)` with a `w` that matches neither player. */
  datatype Inbound = Inbound(
    tag: string,
    player: Option<Player>,
    opponent: Option<Player>,
    moveTimeout: Option<int>,
    timeout: Option<int>,
    deviceType: Option<Payload>,
    playerId: Option<Id>,
    nextPlayerId: Option<Id>,
    winnerPlayerId: Option<Id>,
    content: Option<Payload>,
    evaluationContent: Option<Payload>,
    result: Option<Payload>,
    value: Option<Payload>)

  /** An inbound envelope carrying only its tag. */
  function Tagged(tag: string): (d: Inbound)
    ensures d.tag == tag && d.winnerPlayerId.None?
  {
    Inbound(tag, None, None, None, None, None, None, None, None, None, None, None, None)
  }

  /** What one delivery to the listener does: nothing, one call of a
      game-supplied callback, or an exception. */
  datatype Outcome<+C> = Dropped | Invoked(handler: Handler, call: C) | Failed(error: Error)

  /** Envelopes posted to the hosting window.  `id` on a peer message stands
      for the identity of the object literal that the SDK built; it is not
      part of what reaches the wire, it only lets the model compare envelopes
      by identity as the limiter does. */
  datatype Envelope =
    | Loaded
    | Prepared
    | Ready
    | ShowMenu
    | ExitGameLobby
    | Move(content: Payload)
    | ServerMessage(publicAnswer: bool, requiresConcurrencyControl: bool, content: Payload)
    | PlayerMessage(id: nat, content: Payload)
}
