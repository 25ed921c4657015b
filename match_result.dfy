/** The result resolver: `getGameResult` in the source, `getMatchResult` in
    the release build (the two bodies are the same). */
module MatchResult {
  import opened Protocol

  /** Maps an optional winner id to an outcome seen from the local player.
      An absent winner means "the match goes on"; reading `.id` of a player
      that no `matchPrepare` has set throws. */
  function Resolve(winner: Option<Id>, ctx: Context): (r: Result<Option<GameResult>>)
    ensures winner.None? ==> r == Ok(None)
    ensures r == Ok(Some(Won)) <==>
      winner.Some? && ctx.player.Some? && winner.value == ctx.player.value.id
    ensures r == Ok(Some(Lost)) <==>
      winner.Some? && ctx.player.Some? && ctx.opponent.Some?
      && winner.value != ctx.player.value.id && winner.value == ctx.opponent.value.id
    ensures r == Ok(Some(Draw)) <==>
      winner.Some? && ctx.player.Some? && ctx.opponent.Some?
      && winner.value != ctx.player.value.id && winner.value != ctx.opponent.value.id
    ensures r.Err? <==>
      winner.Some? && (ctx.player.None? || (winner.value != ctx.player.value.id && ctx.opponent.None?))
    ensures r.Err? ==> r.error == TypeError
  {
    match winner
    case None => Ok(None)
    case Some(w) =>
      if ctx.player.None? then Err(TypeError)
      else if w == ctx.player.value.id then Ok(Some(Won))
      else if ctx.opponent.None? then Err(TypeError)
      else if w == ctx.opponent.value.id then Ok(Some(Lost))
      else Ok(Some(Draw))
  }
}
