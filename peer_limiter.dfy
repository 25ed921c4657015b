/** The peer-message rate limiter (`playerMessage` in the source,
    `sendMessageToPlayer` in the release build; the two bodies are the same).
    Its state is the closure variables `message` and `lastMessage` plus the
    timers it has scheduled with `setTimeout`.  The interval is an integer in
    which 0 stands for an absent or zero argument; any other value, negative
    ones included, is truthy and opens a window.  Timer expiry is an explicit
    event, since wall-clock time is not modelled. */
module PeerLimiter {
  import opened Protocol

  datatype Limiter = Limiter(
    message: Option<Envelope>,      // undefined until the first send
    lastMessage: Option<Envelope>,  // null outside a window
    pendingTimers: nat,             // scheduled timer callbacks that have not run yet
    nextId: nat)                    // identity the next envelope object gets

  const Idle: Limiter := Limiter(None, None, 0, 0)

  /** The state after an event and the envelopes it posted, in order. */
  datatype Step = Step(state: Limiter, posts: seq<Envelope>)

  predicate IsPeerEnvelope(e: Envelope, bound: nat) {
    e.PlayerMessage? && e.id < bound
  }

  /** The state invariant: a timer is pending exactly while `lastMessage` is
      set, and never more than one; the envelopes held were built earlier. */
  predicate Inv(l: Limiter) {
    && l.pendingTimers == (if l.lastMessage.Some? then 1 else 0)
    && (l.lastMessage.Some? ==> l.message.Some?)
    && (l.message.Some? ==> IsPeerEnvelope(l.message.value, l.nextId))
    && (l.lastMessage.Some? ==> IsPeerEnvelope(l.lastMessage.value, l.nextId))
  }

  /** One call `playerMessage(content, interval)`. */
  function SendStep(l: Limiter, content: Payload, interval: int): (r: Step)
    requires Inv(l)
    ensures Inv(r.state)
    // it sends exactly when there is no interval or no window is open
    ensures r.posts != [] <==> interval == 0 || l.lastMessage.None?
    // what it sends is one new envelope with the caller's content, which becomes `message`
    ensures r.posts != [] ==>
      && r.posts == [PlayerMessage(l.nextId, content)]
      && r.state.message == Some(r.posts[0])
      && r.state.nextId == l.nextId + 1
    // inside a window nothing is built: the caller's content is lost
    ensures r.posts == [] ==> r.state.message == l.message && r.state.nextId == l.nextId
    // without an interval the window is left as it was
    ensures interval == 0 ==>
      r.state.lastMessage == l.lastMessage && r.state.pendingTimers == l.pendingTimers
    // with an interval a window is open afterwards and holds the current `message`,
    // not the caller's content
    ensures interval != 0 ==> r.state.lastMessage == r.state.message && r.state.pendingTimers == 1
  {
    if interval == 0 || l.lastMessage.None? then
      var m := PlayerMessage(l.nextId, content);
      Step(Limiter(Some(m),
                   if interval != 0 then Some(m) else l.lastMessage,
                   if interval != 0 then l.pendingTimers + 1 else l.pendingTimers,
                   l.nextId + 1),
           [m])
    else
      Step(l.(lastMessage := l.message), [])
  }

  /** The scheduled timer callback runs. */
  function TimerStep(l: Limiter): (r: Step)
    requires Inv(l) && l.pendingTimers > 0
    ensures Inv(r.state)
    // the window always closes
    ensures r.state.lastMessage.None? && r.state.pendingTimers == 0
    // it re-sends `lastMessage` exactly when that is not the current `message`
    ensures r.posts == if l.lastMessage != l.message then [l.lastMessage.value] else []
    // afterwards `message` is the envelope the window held; nothing new is built
    ensures r.state.message == l.lastMessage && r.state.nextId == l.nextId
  {
    if l.lastMessage != l.message then
      Step(Limiter(l.lastMessage, None, l.pendingTimers - 1, l.nextId), [l.lastMessage.value])
    else
      Step(l.(lastMessage := None, pendingTimers := l.pendingTimers - 1), [])
  }

  datatype Event = Call(content: Payload, interval: int) | Expire

  /** One event.  An expiry with no timer pending is no event at all. */
  function Apply(l: Limiter, e: Event): (r: Step)
    requires Inv(l)
    ensures Inv(r.state)
    ensures l.nextId <= r.state.nextId
    ensures forall i :: 0 <= i < |r.posts| ==> IsPeerEnvelope(r.posts[i], r.state.nextId)
  {
    match e
    case Call(c, i) => SendStep(l, c, i)
    case Expire => if l.pendingTimers > 0 then TimerStep(l) else Step(l, [])
  }

  /** A run of events from `l`: the final state and everything posted. */
  function Run(l: Limiter, events: seq<Event>): (r: Step)
    requires Inv(l)
    ensures Inv(r.state)
    ensures l.nextId <= r.state.nextId
    // everything posted is a peer envelope built before the run ended
    ensures forall i :: 0 <= i < |r.posts| ==> IsPeerEnvelope(r.posts[i], r.state.nextId)
    decreases |events|
  {
    if events == [] then Step(l, [])
    else
      var s := Run(l, events[..|events| - 1]);
      var t := Apply(s.state, events[|events| - 1]);
      Step(t.state, s.posts + t.posts)
  }

  /** Every open window holds the current `message`: what interval calls alone leave behind. */
  predicate Coalesced(l: Limiter) {
    l.lastMessage.Some? ==> l.lastMessage == l.message
  }

  predicate AllThrottled(events: seq<Event>) {
    forall k :: 0 <= k < |events| && events[k].Call? ==> events[k].interval != 0
  }

  /** As long as every call passes an interval, the timer never sends: each
      envelope posted is a new one, built by a call made outside a window,
      and none is posted twice. */
  lemma {:induction false} ThrottledTrafficNeverRepeats(l: Limiter, events: seq<Event>)
    requires Inv(l) && Coalesced(l) && AllThrottled(events)
    ensures Coalesced(Run(l, events).state)
    ensures forall i :: 0 <= i < |Run(l, events).posts| ==>
      && Run(l, events).posts[i].PlayerMessage?
      && l.nextId <= Run(l, events).posts[i].id < Run(l, events).state.nextId
    ensures forall i, j :: 0 <= i < j < |Run(l, events).posts| ==>
      Run(l, events).posts[i].id < Run(l, events).posts[j].id
    decreases |events|
  {
    if events != [] {
      var prefix := events[..|events| - 1];
      assert AllThrottled(prefix) by {
        forall k | 0 <= k < |prefix| && prefix[k].Call? ensures prefix[k].interval != 0 {
          assert prefix[k] == events[k];
        }
      }
      ThrottledTrafficNeverRepeats(l, prefix);
      var s := Run(l, prefix);
      var e := events[|events| - 1];
      var t := Apply(s.state, e);
      assert Run(l, events) == Step(t.state, s.posts + t.posts);
      assert e.Call? ==> e.interval != 0;
      assert t.posts == [] || t.posts == [PlayerMessage(s.state.nextId, e.content)];
    }
  }

  /** Three interval calls inside one window followed by the expiry post the
      first envelope only: the later contents are never sent. */
  lemma WindowSendsFirstOnly(a: Payload, b: Payload, c: Payload, interval: int)
    requires interval != 0
    ensures Run(Idle, [Call(a, interval), Call(b, interval), Call(c, interval), Expire]).posts
         == [PlayerMessage(0, a)]
  {
    var es := [Call(a, interval), Call(b, interval), Call(c, interval), Expire];
    assert es[..1][..0] == [] && es[..1][0] == es[0];
    assert Run(Idle, es[..1][..0]) == Step(Idle, []);
    var s1 := Run(Idle, es[..1]);
    assert s1 == Step(Limiter(Some(PlayerMessage(0, a)), Some(PlayerMessage(0, a)), 1, 1), [PlayerMessage(0, a)]);
    var s2 := Run(Idle, es[..2]);
    assert es[..2][..1] == es[..1];
    assert s2 == Step(s1.state, s1.posts);
    var s3 := Run(Idle, es[..3]);
    assert es[..3][..2] == es[..2];
    assert s3 == Step(s1.state, s1.posts);
    assert es[..3] == es[..|es| - 1];
  }

  /** A call without an interval inside a window replaces `message`, so the
      expiry re-sends the envelope that opened the window. */
  lemma UnthrottledCallCausesResend(a: Payload, f: Payload, interval: int)
    requires interval != 0
    ensures Run(Idle, [Call(a, interval), Call(f, 0), Expire]).posts
         == [PlayerMessage(0, a), PlayerMessage(1, f), PlayerMessage(0, a)]
  {
    var es := [Call(a, interval), Call(f, 0), Expire];
    assert es[..1][..0] == [] && es[..1][0] == es[0];
    assert Run(Idle, es[..1][..0]) == Step(Idle, []);
    var s1 := Run(Idle, es[..1]);
    assert s1 == Step(Limiter(Some(PlayerMessage(0, a)), Some(PlayerMessage(0, a)), 1, 1), [PlayerMessage(0, a)]);
    assert es[..2][..1] == es[..1];
    var s2 := Run(Idle, es[..2]);
    assert s2 == Step(Limiter(Some(PlayerMessage(1, f)), Some(PlayerMessage(0, a)), 1, 2),
                      [PlayerMessage(0, a), PlayerMessage(1, f)]);
    assert es[..2] == es[..|es| - 1];
  }

  /** A throttled call, the expiry of its window, then a call without an
      interval: two sends, neither delayed nor repeated. */
  lemma ExpiredWindowThenUnthrottled(a: Payload, f: Payload, interval: int)
    requires interval != 0
    ensures Run(Idle, [Call(a, interval), Expire, Call(f, 0)]).posts
         == [PlayerMessage(0, a), PlayerMessage(1, f)]
  {
    var es := [Call(a, interval), Expire, Call(f, 0)];
    assert es[..1][..0] == [] && es[..1][0] == es[0];
    assert Run(Idle, es[..1][..0]) == Step(Idle, []);
    var s1 := Run(Idle, es[..1]);
    assert s1 == Step(Limiter(Some(PlayerMessage(0, a)), Some(PlayerMessage(0, a)), 1, 1), [PlayerMessage(0, a)]);
    assert es[..2][..1] == es[..1];
    var s2 := Run(Idle, es[..2]);
    assert s2 == Step(Limiter(Some(PlayerMessage(0, a)), None, 0, 1), [PlayerMessage(0, a)]);
    assert es[..2] == es[..|es| - 1];
  }

  /** The limiter's closure variables, updated in place. */
  class Throttle {
    var message: Option<Envelope>
    var lastMessage: Option<Envelope>
    var pendingTimers: nat
    var nextId: nat

    ghost function State(): Limiter
      reads this
    {
      Limiter(message, lastMessage, pendingTimers, nextId)
    }

    ghost predicate Valid()
      reads this
    {
      Inv(State())
    }

    constructor ()
      ensures Valid() && State() == Idle
    {
      message, lastMessage, pendingTimers, nextId := None, None, 0, 0;
    }

    /** `playerMessage(content, interval)`; returns what it posted. */
    method Send(content: Payload, interval: int) returns (posted: seq<Envelope>)
      requires Valid()
      modifies this
      ensures Valid()
      ensures Step(State(), posted) == SendStep(old(State()), content, interval)
    {
      posted := [];
      if interval == 0 || lastMessage == None {
        message := Some(PlayerMessage(nextId, content));
        nextId := nextId + 1;
        posted := posted + [message.value];
        if interval != 0 {
          pendingTimers := pendingTimers + 1;
        }
      }
      if interval != 0 {
        lastMessage := message;
      }
    }

    /** The timer callback scheduled by an earlier `Send`; returns what it posted. */
    method Fire() returns (posted: seq<Envelope>)
      requires Valid() && pendingTimers > 0
      modifies this
      ensures Valid()
      ensures Step(State(), posted) == TimerStep(old(State()))
    {
      pendingTimers := pendingTimers - 1;
      if lastMessage != message {
        message := lastMessage;
        lastMessage := None;
        posted := [message.value];
      } else {
        lastMessage := None;
        posted := [];
      }
    }
  }
}
