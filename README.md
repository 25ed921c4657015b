# Phune Gaming JavaScript SDK: the `PG` object, modelled in Dafny

The SDK connects a game running in an iframe to the Phune Gaming platform
through window messages. The object built by the `PG` constructor has:

- a **callback table**: eight slots (nine in the release build) that start as
  stubs throwing "X is not implemented." and that `init` replaces;
- an **inbound listener**: in `src/PG.js` it first checks the sender's
  origin (the release build has that check commented out); it then switches
  on the envelope's `type`, stores `player`/`opponent` on `matchPrepare`, and
  routes every known tag to exactly one callback, unless the resolver throws
  first;
- a **result resolver**: it maps an optional winner id to
  `won`/`lost`/`draw`/undefined, seen from the stored local player;
- an **outbound dispatcher**: `loaded`, `ready`, `showMenu`, a `move`
  gated by an optional validator, and `serverMessage` with a computed
  concurrency flag, plus `prepared` in `src/PG.js` and `exitGameLobby` in the
  release build;
- a **peer-message limiter**: two closure variables, `message` and
  `lastMessage`, plus a `setTimeout` callback.

The repository holds this object twice. `src/PG.js` is the development source.
`dist/PG.js` is the v0.1.2 release build, whose protocol differs. Both are
modelled.

## Layout

| file | module | contents |
|---|---|---|
| protocol.dfy | `Protocol` | players, match context, inbound envelope record, outbound envelopes, errors, outcomes |
| match_result.dfy | `MatchResult` | the resolver (`getGameResult`, and `getMatchResult` in dist/PG.js:37-49, whose body is the same) |
| callback_table.dfy | `CallbackTable` | the slots, `x = params.x \|\| x`, calling a slot, repeated `init` |
| outbound.dfy | `Outbound` | the `requiresConcurrencyControl` flag |
| peer_limiter.dfy | `PeerLimiter` | the limiter: its step functions, runs of events, and the class `Throttle` holding its closure variables (the code is identical in both copies) |
| src_pg.dfy | `SrcPG` | the listener of src/PG.js as functions `Listen` (the origin gate and the read of the event's data) and `Switch` (the tag switch), and the class `PG` |
| dist_pg.dfy | `DistPG` | the same for dist/PG.js |

The closure state is held in classes. Each copy's class `PG` has fields
`player`, `opponent`, `callbacks`, `listening` and `outbox`. The `outbox` is
everything posted to `window.parent`, in order. `Throttle` has fields
`message`, `lastMessage` and `pendingTimers`. It also has `nextId`: every
envelope object the limiter builds gets a fresh `id`, so that the source's
identity comparison `lastMessage !== message` can be written as equality.

The listener is a pure function, `Listen`. It takes the expected origin, the
sender's origin, the event's data, the stored players and the table, and
returns the new players and an `Outcome`. The data is `None` when it is null
or undefined; reading its `type` then throws a `TypeError`. Object data goes
to `Switch`, the tag switch. An `Outcome` is one of three things:
`Dropped`, `Invoked(handler, call)` (the callback called, with its
arguments), or `Failed(error)`. The error is a stub's `NotImplemented(slot)`
or a `TypeError`, from the resolver or from reading absent data.
`PG.Receive` applies `Listen` to the fields. The release build's `Listen`
takes no origin.

Timer expiry is an explicit event, `TimerFire`. The limiter's spec counts
pending timers rather than keeping a flag, so "at most one timer is pending,
and one is pending exactly when `lastMessage` is set" is proved as an
invariant (`PeerLimiter.Inv`), not assumed.

## Where the code's behaviour differs from its description

The model follows the code in each case.

- The doc comment at src/PG.js:298-299 says that within an interval "only the
  last message will be sent".
  - The code keeps no in-window content: src/PG.js:322 stores the current
    `message` in `lastMessage`, not the caller's details.
  - So three interval calls in one window send the first envelope only
    (`PeerLimiter.WindowSendsFirstOnly`).
  - With interval calls alone, the timer never sends anything
    (`PeerLimiter.ThrottledTrafficNeverRepeats`).
- A call without an interval does not clear `lastMessage`, but it does replace
  `message`. The expiry then re-sends the envelope that opened the window
  (`PeerLimiter.UnthrottledCallCausesResend`). That envelope holds a
  reference to the game's `messageDetails`, so what goes out on the wire is
  that object as it is at expiry (see "## Left out").
- A negative interval is truthy, so it opens a window like a positive one.
  Only 0 (an absent or zero argument) means "no interval".
- The resolver reads `player.id`, and on a miss `opponent.id`. Before any
  `matchPrepare` those players are undefined, so it throws instead of
  answering `draw`. `MatchResult.Resolve` returns `Err(TypeError)` in exactly
  those cases. A winner equal to the local player's id is a win even when the
  opponent is undefined.
- `requiresConcurrencyControl` is `serializeRequest ? serializeRequest : true`.
  An explicit `false` therefore becomes `true`: for boolean arguments the flag
  is always true.

## Model

| member | source | states |
|---|---|---|
| MatchResult.Resolve | src/PG.js:35-47 | an absent winner gives undefined; won iff the winner is the local player's id (checked first); lost iff it is not but equals the opponent's id; draw iff it is neither; a TypeError iff a player that has to be read is undefined |
| CallbackTable.Override | src/PG.js:164-171 | after `init`, each recognised slot holds the supplied callback if the parameter has a truthy member of that name, else its previous value; other names are ignored |
| CallbackTable.Invoke | src/PG.js:60-153 | calling a slot runs the game's callback exactly when the slot was replaced, and otherwise throws "`slot` is not implemented"; it never does nothing |
| CallbackTable.InitKeepsLastSupplied | src/PG.js:164-171 | after any sequence of `init` calls, a slot holds the callback supplied last, or its earlier value if none was supplied, so a slot never supplied still throws |
| Outbound.ConcurrencyFlag | src/PG.js:287 | the flag is never false, and it equals `serializeRequest` when that is truthy |
| PeerLimiter.SendStep | src/PG.js:301-324 | a call sends iff it has no interval or no window is open; what it sends is one new envelope with the caller's content, and that envelope becomes `message`; inside a window nothing is built and the content is lost; without an interval `lastMessage` and the timers are untouched; with an interval a single timer is pending afterwards and `lastMessage` is the current `message`; the invariant is preserved |
| PeerLimiter.TimerStep | src/PG.js:310-318 | the timer re-sends `lastMessage` iff it differs from `message`; it always clears `lastMessage` and leaves no timer pending; it builds no envelope; the invariant is preserved |
| PeerLimiter.Apply | src/PG.js:301-324 | any call or expiry preserves the invariant: a timer is pending iff `lastMessage` is set, never more than one, and the held envelopes were built earlier |
| PeerLimiter.Run | src/PG.js:301-324 | over any sequence of calls and expiries the invariant holds at the end, the counter of envelope identities never goes back, and everything posted is a peer envelope built before the run ended |
| PeerLimiter.ThrottledTrafficNeverRepeats | src/PG.js:302-323 | while every call has an interval, every envelope posted is newly built, in increasing identity, and none is posted twice: the timer never sends |
| PeerLimiter.WindowSendsFirstOnly | src/PG.js:298-323 | three interval calls within one window and the expiry post exactly the first envelope |
| PeerLimiter.UnthrottledCallCausesResend | src/PG.js:311-315 | an interval call, a call without interval, then the expiry post the first envelope, the second, and the first again |
| PeerLimiter.ExpiredWindowThenUnthrottled | src/PG.js:302-323 | an interval call, its expiry, then a call without interval: two immediate sends and no repeat |
| PeerLimiter.Throttle.constructor | src/PG.js:23 | `message` is undefined, `lastMessage` is null, and no timer is pending |
| PeerLimiter.Throttle.Send | src/PG.js:301-324 | the step-by-step update of `message`/`lastMessage` and the timer matches `SendStep`, including what it posts |
| PeerLimiter.Throttle.Fire | src/PG.js:310-318 | the timer callback's in-place update matches `TimerStep`, including what it posts |
| SrcPG.Switch | src/PG.js:178-205 | nothing is called iff the tag is unknown; only `matchPrepare` writes the context, and it writes both players before its callback runs; the callback called is the one the tag names; the resolver's TypeError comes before any callback; a stub throws iff its slot was never replaced; the game result passed on is the resolver's |
| SrcPG.Listen | src/PG.js:173-178 | nothing is called iff the origin differs from the captured one or the data is an object with an unknown tag; only an accepted `matchPrepare` writes the context; null or undefined data from the expected origin throws a TypeError; a callback runs only for object data from the expected origin; an accepted object envelope has exactly `Switch`'s context and outcome |
| SrcPG.SwitchArguments | src/PG.js:178-205 | each callback receives the envelope fields the source passes: `(player, opponent, moveTimeout, deviceType)`, `(nextPlayerId)`, `(playerId, nextPlayerId, content, evaluationContent, result)`, `(playerId, nextPlayerId)`, `(playerId, content, result)`, `(content)`, `(value)` |
| SrcPG.PrepareIsIdempotent | src/PG.js:179-183 | delivering the same `matchPrepare` again gives the same context and the same call |
| SrcPG.ReplayTracksLastPrepare | src/PG.js:173-206 | after any sequence of deliveries, the stored players are exactly those of the last `matchPrepare` from the expected origin (or the initial ones), whatever else arrived and whatever threw |
| SrcPG.MatchEndScenario | src/PG.js:179-195 | with only `onMatchEnd` supplied: `matchPrepare{1,2}` stores both players and throws from the stub; then `matchEnd{winner 1}` calls `onMatchEnd(won)`, and `matchEnd` with no winner calls `onMatchEnd(undefined)` |
| SrcPG.PG.constructor | src/PG.js:15-24 | the origin is captured; the players are undefined; every slot is a stub; there is no listener yet; nothing is posted yet; the limiter is idle |
| SrcPG.PG.Init | src/PG.js:163-212 | the table becomes `Override` of the old table; the listener is active; exactly one `loaded` envelope is posted |
| SrcPG.PG.Receive | src/PG.js:173-206 | with the listener active, the players and the outcome are those of `Listen`; without it, nothing happens |
| SrcPG.PG.Prepared | src/PG.js:221-225 | exactly one `prepared` envelope is appended |
| SrcPG.PG.Ready | src/PG.js:233-237 | exactly one `ready` envelope is appended |
| SrcPG.PG.Move | src/PG.js:248-259 | returns false and posts nothing iff a validator is present and rejects; otherwise appends exactly one `{move, content}` and returns true |
| SrcPG.PG.ShowMenu | src/PG.js:267-271 | exactly one `showMenu` envelope is appended |
| SrcPG.PG.ServerMessage | src/PG.js:283-290 | exactly one `serverMessage` envelope is appended, with `publicAnswer` and `content` unchanged and the computed concurrency flag |
| SrcPG.PG.PlayerMessage | src/PG.js:301-324 | the limiter state and the posts follow `SendStep`; the invariant is kept |
| SrcPG.PG.TimerFire | src/PG.js:310-318 | the limiter state and the posts follow `TimerStep`; the invariant is kept |
| DistPG.Switch | dist/PG.js:194-222 | nothing is called iff the tag is unknown; only `matchPrepare` writes the context, and it writes both players; the callback called is the one the tag names, among nine; the resolver's TypeError comes first; a stub throws iff its slot was never replaced; the match result passed on is the resolver's |
| DistPG.Listen | dist/PG.js:188-194 | the origin is not consulted; nothing is called iff the data is an object with an unknown tag; only `matchPrepare` writes the context; null or undefined data throws a TypeError from any sender; a callback runs only for object data; an accepted object envelope has exactly `Switch`'s context and outcome |
| DistPG.SwitchArguments | dist/PG.js:194-222 | `onMatchPrepare(player, opponent, deviceType)`, `onGameLobby(timeout)`, `onMatchStart(nextPlayerId, timeout)`, `onMoveInvalid(nextPlayerId, evaluationContent)`; the other callbacks take the same fields as in the source |
| DistPG.PG.constructor | dist/PG.js:17-26 | the `origin` is `"*"`; the players are undefined; every slot is a stub; there is no listener yet; nothing is posted yet; the limiter is idle |
| DistPG.PG.Init | dist/PG.js:177-230 | the nine slots are overridden only by truthy members; the listener is active; exactly one `loaded` envelope is posted |
| DistPG.PG.Receive | dist/PG.js:188-224 | with the listener active, the players and the outcome are those of `Listen`, for any sender origin |
| DistPG.PG.Ready | dist/PG.js:238-242 | exactly one `ready` envelope is appended |
| DistPG.PG.ExitGameLobby | dist/PG.js:250-254 | exactly one `exitGameLobby` envelope is appended |
| DistPG.PG.ShowMenu | dist/PG.js:262-266 | exactly one `showMenu` envelope is appended |
| DistPG.PG.SendMove | dist/PG.js:277-288 | returns false with no send iff a validator exists and rejects; otherwise exactly one `move` envelope is sent and it returns true |
| DistPG.PG.SendMessageToServer | dist/PG.js:300-307 | exactly one `serverMessage` envelope is appended, with the flag that is `serializeRequest` if truthy and `true` otherwise |
| DistPG.PG.SendMessageToPlayer | dist/PG.js:318-341 | the same limiter as in the source: the state and the posts follow `SendStep` |
| DistPG.PG.TimerFire | dist/PG.js:327-335 | the same timer callback: the state and the posts follow `TimerStep` |

## Left out

- Window plumbing (`window.addEventListener`, `window.parent.postMessage`): an inbound event is the pair (sender origin, envelope) given to `Receive`; posting appends to `outbox`. In src/PG.js every post targets the captured `origin`; in dist/PG.js every post targets `"*"`. Both are recorded as the class's `origin` constant.
- Computing the page origin from `document.location` (src/PG.js:17): the origin is a constructor argument.
- `console.warn` on a rejected origin: it has no effect on state.
- Timer timing: no real time is modelled. `setTimeout` and its delay become a pending-timer count, and expiry is an explicit event. Because at most one timer is ever pending, the interval's length only decides when expiry happens, not what it does.
- Bodies of game callbacks and validators: a callback is an opaque handle, and a call is recorded as an `Invoked` value. A validator is the truthiness of its answer (`Option<bool>`, None for "no validator"). Whatever a callback throws, or does to the SDK, is not modelled.
- SrcPG.PG.Receive, DistPG.PG.Receive: a second `init` adds a second listener in the source, so every later envelope would be handled twice. The model keeps a single listener.
- JavaScript truthiness in general:
  - `init`'s parameter is the map of its truthy members, and a truthy member that is not a function is treated like a callback;
  - the limiter's interval is an integer, so non-numeric or NaN intervals are not modelled;
  - `serializeRequest` is undefined or a boolean, so a truthy non-boolean that the source would copy into the flag is not modelled;
  - `isAnswerPublic` is a boolean, copied unchanged;
  - event data that is an object without a `type`, or a primitive other than null or undefined, is one with an unknown tag (null and undefined data are modelled: they throw).
- The winner id: `None` stands for undefined only, since the resolver tests `typeof winnerPlayerId === 'undefined'` (src/PG.js:36, dist/PG.js:38). A null or non-integer winner is written `Some(w)` with a `w` that matches neither player, so it gives a draw, or a TypeError before any `matchPrepare`.
- `init` with no argument or with null: the source throws a TypeError reading `params.onMatchPrepare` (src/PG.js:164, dist/PG.js:178) before any slot changes, any listener is added or `loaded` is posted. The parameter is documented as mandatory, and the model's `params` is always a map.
- Object identity of players: ids are integers compared by value, and a player object shared between the SDK and the game is a value.
- PeerLimiter.TimerStep, PeerLimiter.Throttle.Fire, PeerLimiter.UnthrottledCallCausesResend: a payload is a value. In the source the envelope built at src/PG.js:303-306 (dist/PG.js:320-323) holds a reference to the game's `messageDetails` object, which `postMessage` copies only when it posts; so the timer's re-send (src/PG.js:314, dist/PG.js:331) posts that object as it is at expiry, while the model repeats the content as it was at the call. Envelope identities, and so which envelope is re-sent, are modelled exactly.
- Gruntfile.js: build, lint and documentation tasks, with no runtime behaviour.
