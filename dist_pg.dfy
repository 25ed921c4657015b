/** The SDK object of the v0.1.2 release build (dist/PG.js).  It differs from
    the development source in its protocol: a game-lobby phase
    (`enterGameLobby` / `onGameLobby`, `exitGameLobby`), other callback
    argument lists, renamed outbound operations, no `prepared`, no origin
    check on inbound envelopes, and every post targets "*". */
module DistPG {
  import opened Protocol
  import opened MatchResult
  import opened CallbackTable
  import opened Outbound
  import opened PeerLimiter

  /** The nine callback slots `init` recognises. */
  const Slots: set<string> := {
    "onMatchPrepare", "onGameLobby", "onMatchStart", "onMoveValid", "onMoveInvalid",
    "onMatchEnd", "onServerMessage", "onPlayerMessage", "onKeyPress"
  }

  /** The listener's cases: envelope tag to the slot it calls. */
  const TagSlots: map<string, string> := map[
    "matchPrepare" := "onMatchPrepare",
    "enterGameLobby" := "onGameLobby",
    "matchStart" := "onMatchStart",
    "matchMoveValid" := "onMoveValid",
    "matchMoveInvalid" := "onMoveInvalid",
    "matchEnd" := "onMatchEnd",
    "serverMessage" := "onServerMessage",
    "playerMessage" := "onPlayerMessage",
    "keyPress" := "onKeyPress"
  ]

  /** The tags whose case runs the result resolver (`getMatchResult`). */
  const ResolvingTags: set<string> := {"matchMoveValid", "matchEnd"}

  /** A call of a game callback, with its arguments. */
  datatype Invocation =
    | OnMatchPrepare(player: Option<Player>, opponent: Option<Player>, deviceType: Option<Payload>)
    | OnGameLobby(allowedTime: Option<int>)
    | OnMatchStart(playerIdToPlayNext: Option<Id>, timeToPlay: Option<int>)
    | OnMoveValid(playerIdWhoSentTheMove: Option<Id>, playerIdToPlayNext: Option<Id>, moveDetails: Option<Payload>,
                  moveEvaluation: Option<Payload>, matchResult: Option<GameResult>)
    | OnMoveInvalid(playerIdToPlayNext: Option<Id>, moveEvaluation: Option<Payload>)
    | OnMatchEnd(matchResult: Option<GameResult>)
    | OnServerMessage(playerIdWhoSentTheMessage: Option<Id>, messageDetails: Option<Payload>, messageResult: Option<Payload>)
    | OnPlayerMessage(messageDetails: Option<Payload>)
    | OnKeyPress(key: Option<Payload>)

  /** The slot whose callback receives `call`. */
  function SlotOf(call: Invocation): string {
    match call
    case OnMatchPrepare(_, _, _) => "onMatchPrepare"
    case OnGameLobby(_) => "onGameLobby"
    case OnMatchStart(_, _) => "onMatchStart"
    case OnMoveValid(_, _, _, _, _) => "onMoveValid"
    case OnMoveInvalid(_, _) => "onMoveInvalid"
    case OnMatchEnd(_) => "onMatchEnd"
    case OnServerMessage(_, _, _) => "onServerMessage"
    case OnPlayerMessage(_) => "onPlayerMessage"
    case OnKeyPress(_) => "onKeyPress"
  }

  /** The match context after a delivery, and what the delivery did. */
  datatype Reaction = Reaction(ctx: Context, outcome: Outcome<Invocation>)

  /** The `switch (msg.data.type)` of the release build's listener, for
      data that is an object. */
  function Switch(data: Inbound, ctx: Context, t: Table): (r: Reaction)
    // nothing is called exactly for an unknown tag
    ensures r.outcome.Dropped? <==> data.tag !in TagSlots
    // only matchPrepare writes the context, and it writes both players
    ensures r.ctx == if data.tag == "matchPrepare" then Context(data.player, data.opponent) else ctx
    // the callback called is the one the tag names, as the table holds it
    ensures r.outcome.Invoked? ==>
      data.tag in TagSlots && SlotOf(r.outcome.call) == TagSlots[data.tag]
      && Lookup(t, TagSlots[data.tag]) == Some(r.outcome.handler)
    // the resolver throws before any callback runs
    ensures r.outcome == Failed(TypeError) <==>
      data.tag in ResolvingTags && Resolve(data.winnerPlayerId, ctx).Err?
    // a stub throws exactly when its slot was never replaced
    ensures r.outcome.Failed? && r.outcome.error.NotImplemented? <==>
      data.tag in TagSlots && Lookup(t, TagSlots[data.tag]).None?
      && !(data.tag in ResolvingTags && Resolve(data.winnerPlayerId, ctx).Err?)
    ensures r.outcome.Failed? && r.outcome.error.NotImplemented? ==> r.outcome.error.slot == TagSlots[data.tag]
    // the match result passed on is the resolver's verdict on the stored players
    ensures r.outcome.Invoked? && (r.outcome.call.OnMoveValid? || r.outcome.call.OnMatchEnd?) ==>
      Resolve(data.winnerPlayerId, ctx) == Ok(r.outcome.call.matchResult)
    // onMatchPrepare sees the players just stored
    ensures r.outcome.Invoked? && r.outcome.call.OnMatchPrepare? ==>
      r.outcome.call.player == r.ctx.player && r.outcome.call.opponent == r.ctx.opponent
  {
    if data.tag == "matchPrepare" then
      var next := Context(data.player, data.opponent);
      Reaction(next, Invoke(t, "onMatchPrepare", OnMatchPrepare(next.player, next.opponent, data.deviceType)))
    else if data.tag == "enterGameLobby" then
      Reaction(ctx, Invoke(t, "onGameLobby", OnGameLobby(data.timeout)))
    else if data.tag == "matchStart" then
      Reaction(ctx, Invoke(t, "onMatchStart", OnMatchStart(data.nextPlayerId, data.timeout)))
    else if data.tag == "matchMoveValid" then
      Reaction(ctx,
        match Resolve(data.winnerPlayerId, ctx)
        case Err(e) => Failed(e)
        case Ok(g) => Invoke(t, "onMoveValid",
          OnMoveValid(data.playerId, data.nextPlayerId, data.content, data.evaluationContent, g)))
    else if data.tag == "matchMoveInvalid" then
      Reaction(ctx, Invoke(t, "onMoveInvalid", OnMoveInvalid(data.nextPlayerId, data.evaluationContent)))
    else if data.tag == "matchEnd" then
      Reaction(ctx,
        match Resolve(data.winnerPlayerId, ctx)
        case Err(e) => Failed(e)
        case Ok(g) => Invoke(t, "onMatchEnd", OnMatchEnd(g)))
    else if data.tag == "serverMessage" then
      Reaction(ctx, Invoke(t, "onServerMessage", OnServerMessage(data.playerId, data.content, data.result)))
    else if data.tag == "playerMessage" then
      Reaction(ctx, Invoke(t, "onPlayerMessage", OnPlayerMessage(data.content)))
    else if data.tag == "keyPress" then
      Reaction(ctx, Invoke(t, "onKeyPress", OnKeyPress(data.value)))
    else
      Reaction(ctx, Dropped)
  }

  /** The `message` listener of the release build.  Its origin check is
      commented out, so the sender's origin is not an input at all; reading
      `msg.data.type` throws when the event's data is null or undefined
      (`data == None`), whoever sent it. */
  function Listen(data: Option<Inbound>, ctx: Context, t: Table): (r: Reaction)
    // nothing is called exactly for an object whose tag is unknown, whatever the origin
    ensures r.outcome.Dropped? <==> data.Some? && data.value.tag !in TagSlots
    // only matchPrepare writes the context, and it writes both players
    ensures r.ctx == if data.Some? && data.value.tag == "matchPrepare"
                     then Context(data.value.player, data.value.opponent) else ctx
    // null or undefined data throws before any callback
    ensures data.None? ==> r.outcome == Failed(TypeError)
    // a callback runs only for object data, and then as the switch decides
    ensures r.outcome.Invoked? ==> data.Some? && r.outcome == Switch(data.value, ctx, t).outcome
    // object data gets exactly the switch's context and outcome
    ensures data.Some? ==> r == Switch(data.value, ctx, t)
  {
    match data
    case None => Reaction(ctx, Failed(TypeError))
    case Some(d) => Switch(d, ctx, t)
  }

  /** The arguments each callback receives, field by field from the envelope. */
  lemma SwitchArguments(data: Inbound, ctx: Context, t: Table)
    ensures var r := Switch(data, ctx, t);
      r.outcome.Invoked? ==>
        match r.outcome.call
        case OnMatchPrepare(p, o, device) => p == data.player && o == data.opponent && device == data.deviceType
        case OnGameLobby(time) => time == data.timeout
        case OnMatchStart(next, time) => next == data.nextPlayerId && time == data.timeout
        case OnMoveValid(sender, next, move, eval, _) =>
          sender == data.playerId && next == data.nextPlayerId && move == data.content && eval == data.evaluationContent
        case OnMoveInvalid(next, eval) => next == data.nextPlayerId && eval == data.evaluationContent
        case OnMatchEnd(_) => true
        case OnServerMessage(sender, details, result) =>
          sender == data.playerId && details == data.content && result == data.result
        case OnPlayerMessage(details) => details == data.content
        case OnKeyPress(key) => key == data.value
  {
  }

  /** The object returned by the `PG` constructor of the release build. */
  class PG {
    /** The `origin` variable, fixed to "*": every post targets any origin. */
    const origin: string
    var player: Option<Player>
    var opponent: Option<Player>
    var callbacks: Table
    /** Whether `init` has registered the message listener. */
    var listening: bool
    /** Everything posted to the parent window, in order. */
    var outbox: seq<Envelope>
    /** The closure variables of the peer limiter. */
    const peer: Throttle

    ghost predicate Valid()
      reads this, peer
    {
      peer.Valid()
    }

    constructor ()
      ensures Valid() && fresh(peer)
      ensures origin == "*" && player == None && opponent == None
      ensures callbacks == map[] && !listening && outbox == [] && peer.State() == Idle
    {
      origin := "*";
      player, opponent := None, None;
      callbacks := map[];
      listening := false;
      outbox := [];
      peer := new Throttle();
    }

    /** `init(params)`: replace the slots given truthy members, start
        listening, and tell the platform the game loaded. */
    method Init(params: map<string, Handler>)
      modifies this`callbacks, this`listening, this`outbox
      ensures callbacks == Override(Slots, old(callbacks), params)
      ensures listening
      ensures outbox == old(outbox) + [Envelope.Loaded]
    {
      callbacks := Override(Slots, callbacks, params);
      listening := true;
      outbox := outbox + [Envelope.Loaded];
    }

    /** A message event delivered to the window; its origin `from` is
        ignored, and `data` is None when the event's data is null or undefined. */
    method Receive(from: string, data: Option<Inbound>) returns (outcome: Outcome<Invocation>)
      modifies this`player, this`opponent
      ensures listening ==>
        var r := Listen(data, old(Context(player, opponent)), callbacks);
        Context(player, opponent) == r.ctx && outcome == r.outcome
      ensures !listening ==> player == old(player) && opponent == old(opponent) && outcome == Dropped
    {
      if !listening {
        return Dropped;
      }
      var r := Listen(data, Context(player, opponent), callbacks);
      player, opponent := r.ctx.player, r.ctx.opponent;
      outcome := r.outcome;
    }

    method Ready()
      modifies this`outbox
      ensures outbox == old(outbox) + [Envelope.Ready]
    {
      outbox := outbox + [Envelope.Ready];
    }

    method ExitGameLobby()
      modifies this`outbox
      ensures outbox == old(outbox) + [Envelope.ExitGameLobby]
    {
      outbox := outbox + [Envelope.ExitGameLobby];
    }

    method ShowMenu()
      modifies this`outbox
      ensures outbox == old(outbox) + [Envelope.ShowMenu]
    {
      outbox := outbox + [Envelope.ShowMenu];
    }

    /** `sendMove(moveDetails, validate)`; `validate` is None when no
        validator is given, else the truthiness of what it returned. */
    method SendMove(moveDetails: Payload, validate: Option<bool>) returns (sent: bool)
      modifies this`outbox
      ensures sent <==> !(validate.Some? && !validate.value)
      ensures outbox == old(outbox) + if sent then [Envelope.Move(moveDetails)] else []
    {
      if validate.Some? && !validate.value {
        return false;
      }
      outbox := outbox + [Envelope.Move(moveDetails)];
      sent := true;
    }

    method SendMessageToServer(messageDetails: Payload, isAnswerPublic: bool, serializeRequest: Option<bool>)
      modifies this`outbox
      ensures outbox == old(outbox) + [Envelope.ServerMessage(isAnswerPublic, ConcurrencyFlag(serializeRequest), messageDetails)]
    {
      outbox := outbox + [Envelope.ServerMessage(isAnswerPublic, ConcurrencyFlag(serializeRequest), messageDetails)];
    }

    /** `sendMessageToPlayer(messageDetails, sendTimeIntervalLimit)`. */
    method SendMessageToPlayer(messageDetails: Payload, sendTimeIntervalLimit: int)
      requires Valid()
      modifies this`outbox, peer
      ensures Valid()
      ensures var s := SendStep(old(peer.State()), messageDetails, sendTimeIntervalLimit);
        peer.State() == s.state && outbox == old(outbox) + s.posts
    {
      var posted := peer.Send(messageDetails, sendTimeIntervalLimit);
      outbox := outbox + posted;
    }

    /** The limiter's pending `setTimeout` callback runs. */
    method TimerFire()
      requires Valid() && peer.pendingTimers > 0
      modifies this`outbox, peer
      ensures Valid()
      ensures var s := TimerStep(old(peer.State()));
        peer.State() == s.state && outbox == old(outbox) + s.posts
    {
      var posted := peer.Fire();
      outbox := outbox + posted;
    }
  }
}
