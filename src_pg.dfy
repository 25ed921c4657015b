/** The SDK object of the development source (src/PG.js): callback table,
    origin-checked message listener, outbound dispatcher and peer limiter. */
module SrcPG {
  import opened Protocol
  import opened MatchResult
  import opened CallbackTable
  import opened Outbound
  import opened PeerLimiter

  /** The eight callback slots `init` recognises. */
  const Slots: set<string> := {
    "onMatchPrepare", "onMatchStart", "onMoveValid", "onMoveInvalid",
    "onMatchEnd", "onServerMessage", "onPlayerMessage", "onKeyPress"
  }

  /** The listener's cases: envelope tag to the slot it calls. */
  const TagSlots: map<string, string> := map[
    "matchPrepare" := "onMatchPrepare",
    "matchStart" := "onMatchStart",
    "matchMoveValid" := "onMoveValid",
    "matchMoveInvalid" := "onMoveInvalid",
    "matchEnd" := "onMatchEnd",
    "serverMessage" := "onServerMessage",
    "playerMessage" := "onPlayerMessage",
    "keyPress" := "onKeyPress"
  ]

  /** The tags whose case runs the result resolver. */
  const ResolvingTags: set<string> := {"matchMoveValid", "matchEnd"}

  /** A call of a game callback, with its arguments. */
  datatype Invocation =
    | OnMatchPrepare(player: Option<Player>, opponent: Option<Player>, timeToPlay: Option<int>, deviceType: Option<Payload>)
    | OnMatchStart(playerIdToPlayNext: Option<Id>)
    | OnMoveValid(playerIdWhoSentTheMove: Option<Id>, playerIdToPlayNext: Option<Id>, moveDetails: Option<Payload>,
                  moveResults: Option<Payload>, gameResult: Option<GameResult>)
    | OnMoveInvalid(playerIdWhoSentTheMove: Option<Id>, playerIdToPlayNext: Option<Id>)
    | OnMatchEnd(gameResult: Option<GameResult>)
    | OnServerMessage(playerIdWhoSentTheMessage: Option<Id>, messageDetails: Option<Payload>, messageResults: Option<Payload>)
    | OnPlayerMessage(messageDetails: Option<Payload>)
    | OnKeyPress(key: Option<Payload>)

  /** The slot whose callback receives `call`. */
  function SlotOf(call: Invocation): string {
    match call
    case OnMatchPrepare(_, _, _, _) => "onMatchPrepare"
    case OnMatchStart(_) => "onMatchStart"
    case OnMoveValid(_, _, _, _, _) => "onMoveValid"
    case OnMoveInvalid(_, _) => "onMoveInvalid"
    case OnMatchEnd(_) => "onMatchEnd"
    case OnServerMessage(_, _, _) => "onServerMessage"
    case OnPlayerMessage(_) => "onPlayerMessage"
    case OnKeyPress(_) => "onKeyPress"
  }

  /** The match context after a delivery, and what the delivery did. */
  datatype Reaction = Reaction(ctx: Context, outcome: Outcome<Invocation>)

  /** The `switch (msg.data.type)` of the listener, for data that is an
      object.  `matchPrepare` stores both players before calling its
      callback, so the context changes even when that callback throws. */
  function Switch(data: Inbound, ctx: Context, t: Table): (r: Reaction)
    // nothing is called exactly for an unknown tag
    ensures r.outcome.Dropped? <==> data.tag !in TagSlots
    // only matchPrepare writes the context, and it writes both players
    ensures r.ctx == if data.tag == "matchPrepare" then Context(data.player, data.opponent) else ctx
    // the callback called is the one the tag names, as the table holds it
    ensures r.outcome.Invoked? ==>
      data.tag in TagSlots && SlotOf(r.outcome.call) == TagSlots[data.tag]
      && Lookup(t, TagSlots[data.tag]) == Some(r.outcome.handler)
    // the resolver throws before any callback runs
    ensures r.outcome == Failed(TypeError) <==>
      data.tag in ResolvingTags && Resolve(data.winnerPlayerId, ctx).Err?
    // a stub throws exactly when its slot was never replaced
    ensures r.outcome.Failed? && r.outcome.error.NotImplemented? <==>
      data.tag in TagSlots && Lookup(t, TagSlots[data.tag]).None?
      && !(data.tag in ResolvingTags && Resolve(data.winnerPlayerId, ctx).Err?)
    ensures r.outcome.Failed? && r.outcome.error.NotImplemented? ==> r.outcome.error.slot == TagSlots[data.tag]
    // the game result passed on is the resolver's verdict on the stored players
    ensures r.outcome.Invoked? && (r.outcome.call.OnMoveValid? || r.outcome.call.OnMatchEnd?) ==>
      Resolve(data.winnerPlayerId, ctx) == Ok(r.outcome.call.gameResult)
    // onMatchPrepare sees the players just stored
    ensures r.outcome.Invoked? && r.outcome.call.OnMatchPrepare? ==>
      r.outcome.call.player == r.ctx.player && r.outcome.call.opponent == r.ctx.opponent
  {
    if data.tag == "matchPrepare" then
      var next := Context(data.player, data.opponent);
      Reaction(next, Invoke(t, "onMatchPrepare",
        OnMatchPrepare(next.player, next.opponent, data.moveTimeout, data.deviceType)))
    else if data.tag == "matchStart" then
      Reaction(ctx, Invoke(t, "onMatchStart", OnMatchStart(data.nextPlayerId)))
    else if data.tag == "matchMoveValid" then
      Reaction(ctx,
        match Resolve(data.winnerPlayerId, ctx)
        case Err(e) => Failed(e)
        case Ok(g) => Invoke(t, "onMoveValid",
          OnMoveValid(data.playerId, data.nextPlayerId, data.content, data.evaluationContent, g)))
    else if data.tag == "matchMoveInvalid" then
      Reaction(ctx, Invoke(t, "onMoveInvalid", OnMoveInvalid(data.playerId, data.nextPlayerId)))
    else if data.tag == "matchEnd" then
      Reaction(ctx,
        match Resolve(data.winnerPlayerId, ctx)
        case Err(e) => Failed(e)
        case Ok(g) => Invoke(t, "onMatchEnd", OnMatchEnd(g)))
    else if data.tag == "serverMessage" then
      Reaction(ctx, Invoke(t, "onServerMessage", OnServerMessage(data.playerId, data.content, data.result)))
    else if data.tag == "playerMessage" then
      Reaction(ctx, Invoke(t, "onPlayerMessage", OnPlayerMessage(data.content)))
    else if data.tag == "keyPress" then
      Reaction(ctx, Invoke(t, "onKeyPress", OnKeyPress(data.value)))
    else
      Reaction(ctx, Dropped)
  }

  /** The `message` listener.  It drops an event from a foreign origin.
      Otherwise it reads `msg.data.type`, which throws when the event's data
      is null or undefined (`data == None`), and then switches on the tag. */
  function Listen(expected: string, origin: string, data: Option<Inbound>, ctx: Context, t: Table): (r: Reaction)
    // nothing is called exactly for a foreign origin or an object whose tag is unknown
    ensures r.outcome.Dropped? <==> origin != expected || (data.Some? && data.value.tag !in TagSlots)
    // only an accepted matchPrepare writes the context, and it writes both players
    ensures r.ctx == if origin == expected && data.Some? && data.value.tag == "matchPrepare"
                     then Context(data.value.player, data.value.opponent) else ctx
    // null or undefined data from the expected origin throws before any callback
    ensures origin == expected && data.None? ==> r.outcome == Failed(TypeError)
    // a callback runs only for the expected origin, and then as the switch decides
    ensures r.outcome.Invoked? ==> origin == expected && data.Some? && r.outcome == Switch(data.value, ctx, t).outcome
    // an accepted object envelope gets exactly the switch's context and outcome
    ensures origin == expected && data.Some? ==> r == Switch(data.value, ctx, t)
  {
    if origin != expected then Reaction(ctx, Dropped)
    else
      match data
      case None => Reaction(ctx, Failed(TypeError))
      case Some(d) => Switch(d, ctx, t)
  }

  /** The arguments each callback receives, field by field from the envelope. */
  lemma SwitchArguments(data: Inbound, ctx: Context, t: Table)
    ensures var r := Switch(data, ctx, t);
      r.outcome.Invoked? ==>
        match r.outcome.call
        case OnMatchPrepare(p, o, time, device) =>
          p == data.player && o == data.opponent && time == data.moveTimeout && device == data.deviceType
        case OnMatchStart(next) => next == data.nextPlayerId
        case OnMoveValid(sender, next, move, eval, _) =>
          sender == data.playerId && next == data.nextPlayerId && move == data.content && eval == data.evaluationContent
        case OnMoveInvalid(sender, next) => sender == data.playerId && next == data.nextPlayerId
        case OnMatchEnd(_) => true
        case OnServerMessage(sender, details, results) =>
          sender == data.playerId && details == data.content && results == data.result
        case OnPlayerMessage(details) => details == data.content
        case OnKeyPress(key) => key == data.value
  {
  }

  /** Delivering the same matchPrepare again leaves the same context and
      makes the same call. */
  lemma PrepareIsIdempotent(expected: string, origin: string, data: Option<Inbound>, ctx: Context, t: Table)
    requires data.Some? && data.value.tag == "matchPrepare"
    ensures var once := Listen(expected, origin, data, ctx, t);
      Listen(expected, origin, data, once.ctx, t) == once
  {
  }

  /** The context after a sequence of deliveries, in delivery order.  An
      exception thrown by one delivery does not stop the later ones. */
  function Replay(expected: string, ctx: Context, t: Table, events: seq<(string, Option<Inbound>)>): Context
    decreases |events|
  {
    if events == [] then ctx
    else
      var last := events[|events| - 1];
      Listen(expected, last.0, last.1, Replay(expected, ctx, t, events[..|events| - 1]), t).ctx
  }

  /** Reference definition: the last matchPrepare delivered from the expected origin. */
  function LastPrepare(expected: string, events: seq<(string, Option<Inbound>)>): Option<Inbound>
    decreases |events|
  {
    if events == [] then None
    else
      var last := events[|events| - 1];
      if last.0 == expected && last.1.Some? && last.1.value.tag == "matchPrepare" then last.1
      else LastPrepare(expected, events[..|events| - 1])
  }

  /** The context is always the one the last accepted matchPrepare carried,
      whole, whatever else was delivered and whichever callbacks threw. */
  lemma {:induction false} ReplayTracksLastPrepare(expected: string, ctx: Context, t: Table, events: seq<(string, Option<Inbound>)>)
    ensures Replay(expected, ctx, t, events) ==
      match LastPrepare(expected, events)
      case None => ctx
      case Some(d) => Context(d.player, d.opponent)
    decreases |events|
  {
    if events != [] {
      ReplayTracksLastPrepare(expected, ctx, t, events[..|events| - 1]);
    }
  }

  /** With only onMatchEnd supplied: matchPrepare stores players 1 and 2
      and then throws from the onMatchPrepare stub; a following matchEnd
      naming player 1 reports a win, and one naming no winner reports none. */
  lemma MatchEndScenario(origin: string, h: Handler, p: Player, o: Player)
    requires p.id == 1 && o.id == 2
    ensures var t := Override(Slots, map[], map["onMatchEnd" := h]);
      var prepare := Tagged("matchPrepare").(player := Some(p), opponent := Some(o));
      var first := Listen(origin, origin, Some(prepare), NoMatch, t);
      && first.outcome == Failed(NotImplemented("onMatchPrepare"))
      && first.ctx == Context(Some(p), Some(o))
      && Listen(origin, origin, Some(Tagged("matchEnd").(winnerPlayerId := Some(1))), first.ctx, t).outcome
         == Invoked(h, OnMatchEnd(Some(Won)))
      && Listen(origin, origin, Some(Tagged("matchEnd")), first.ctx, t).outcome
         == Invoked(h, OnMatchEnd(None))
  {
    var t := Override(Slots, map[], map["onMatchEnd" := h]);
    assert Lookup(t, "onMatchPrepare") == None;
    assert Lookup(t, "onMatchEnd") == Some(h);
  }

  /** The object returned by the `PG` constructor. */
  class PG {
    /** The page's own origin, captured at construction: inbound envelopes
        must come from it, and every post targets it. */
    const origin: string
    var player: Option<Player>
    var opponent: Option<Player>
    var callbacks: Table
    /** Whether `init` has registered the message listener. */
    var listening: bool
    /** Everything posted to the parent window, in order. */
    var outbox: seq<Envelope>
    /** The closure variables of the peer limiter. */
    const peer: Throttle

    ghost predicate Valid()
      reads this, peer
    {
      peer.Valid()
    }

    constructor (origin: string)
      ensures Valid() && fresh(peer)
      ensures this.origin == origin && player == None && opponent == None
      ensures callbacks == map[] && !listening && outbox == [] && peer.State() == Idle
    {
      this.origin := origin;
      player, opponent := None, None;
      callbacks := map[];
      listening := false;
      outbox := [];
      peer := new Throttle();
    }

    /** `init(params)`: replace the slots given truthy members, start
        listening, and tell the platform the game loaded. */
    method Init(params: map<string, Handler>)
      modifies this`callbacks, this`listening, this`outbox
      ensures callbacks == Override(Slots, old(callbacks), params)
      ensures listening
      ensures outbox == old(outbox) + [Envelope.Loaded]
    {
      callbacks := Override(Slots, callbacks, params);
      listening := true;
      outbox := outbox + [Envelope.Loaded];
    }

    /** A message event delivered to the window from `from`; `data` is None
        when the event's data is null or undefined. */
    method Receive(from: string, data: Option<Inbound>) returns (outcome: Outcome<Invocation>)
      modifies this`player, this`opponent
      ensures listening ==>
        var r := Listen(origin, from, data, old(Context(player, opponent)), callbacks);
        Context(player, opponent) == r.ctx && outcome == r.outcome
      ensures !listening ==> player == old(player) && opponent == old(opponent) && outcome == Dropped
    {
      if !listening {
        return Dropped;
      }
      var r := Listen(origin, from, data, Context(player, opponent), callbacks);
      player, opponent := r.ctx.player, r.ctx.opponent;
      outcome := r.outcome;
    }

    method Prepared()
      modifies this`outbox
      ensures outbox == old(outbox) + [Envelope.Prepared]
    {
      outbox := outbox + [Envelope.Prepared];
    }

    method Ready()
      modifies this`outbox
      ensures outbox == old(outbox) + [Envelope.Ready]
    {
      outbox := outbox + [Envelope.Ready];
    }

    /** `move(moveDetails, validate)`; `validate` is None when no validator
        is given, else the truthiness of what it returned. */
    method Move(moveDetails: Payload, validate: Option<bool>) returns (sent: bool)
      modifies this`outbox
      ensures sent <==> !(validate.Some? && !validate.value)
      ensures outbox == old(outbox) + if sent then [Envelope.Move(moveDetails)] else []
    {
      if validate.Some? && !validate.value {
        return false;
      }
      outbox := outbox + [Envelope.Move(moveDetails)];
      sent := true;
    }

    method ShowMenu()
      modifies this`outbox
      ensures outbox == old(outbox) + [Envelope.ShowMenu]
    {
      outbox := outbox + [Envelope.ShowMenu];
    }

    method ServerMessage(messageDetails: Payload, isAnswerPublic: bool, serializeRequest: Option<bool>)
      modifies this`outbox
      ensures outbox == old(outbox) + [Envelope.ServerMessage(isAnswerPublic, ConcurrencyFlag(serializeRequest), messageDetails)]
    {
      outbox := outbox + [Envelope.ServerMessage(isAnswerPublic, ConcurrencyFlag(serializeRequest), messageDetails)];
    }

    /** `playerMessage(messageDetails, sendTimeIntervalLimit)`. */
    method PlayerMessage(messageDetails: Payload, sendTimeIntervalLimit: int)
      requires Valid()
      modifies this`outbox, peer
      ensures Valid()
      ensures var s := SendStep(old(peer.State()), messageDetails, sendTimeIntervalLimit);
        peer.State() == s.state && outbox == old(outbox) + s.posts
    {
      var posted := peer.Send(messageDetails, sendTimeIntervalLimit);
      outbox := outbox + posted;
    }

    /** The limiter's pending `setTimeout` callback runs. */
    method TimerFire()
      requires Valid() && peer.pendingTimers > 0
      modifies this`outbox, peer
      ensures Valid()
      ensures var s := TimerStep(old(peer.State()));
        peer.State() == s.state && outbox == old(outbox) + s.posts
    {
      var posted := peer.Fire();
      outbox := outbox + posted;
    }
  }
}
