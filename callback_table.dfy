/** The callback variables of the SDK object.  Each starts as a stub that
    throws "<name> is not implemented."; `init` replaces a slot only with a
    truthy member of its parameter object.  A table holds an entry for every
    slot that has been replaced; a slot without an entry still holds its stub. */
module CallbackTable {
  import opened Protocol

  type Table = map<string, Handler>

  /** The callback a slot currently holds, or None for the throwing stub. */
  function Lookup(t: Table, slot: string): Option<Handler> {
    if slot in t then Some(t[slot]) else None
  }

  /** `slot = params.slot || slot` for every recognised slot name.  `params`
      holds the truthy members of the object given to `init`; members whose
      name is not a slot are ignored. */
  function Override(slots: set<string>, t: Table, params: map<string, Handler>): (r: Table)
    ensures forall s :: Lookup(r, s) == if s in slots && s in params then Some(params[s]) else Lookup(t, s)
  {
    map s | s in t.Keys + (params.Keys * slots) :: if s in slots && s in params then params[s] else t[s]
  }

  /** Calling the callback in `slot`: a replaced slot runs the game's
      function, a stub throws. */
  function Invoke<C>(t: Table, slot: string, call: C): (r: Outcome<C>)
    ensures r.Invoked? <==> slot in t
    ensures r.Invoked? ==> r.handler == t[slot] && r.call == call
    ensures r.Failed? ==> r.error == NotImplemented(slot)
    ensures !r.Dropped?
  {
    match Lookup(t, slot)
    case Some(h) => Invoked(h, call)
    case None => Failed(NotImplemented(slot))
  }

  /** The table after calling `init` once with each parameter object of `ps`, in order. */
  function InitAll(slots: set<string>, t: Table, ps: seq<map<string, Handler>>): Table
    decreases |ps|
  {
    if ps == [] then t
    else Override(slots, InitAll(slots, t, ps[..|ps| - 1]), ps[|ps| - 1])
  }

  /** Reference definition: the member named `s` of the last parameter
      object that has one. */
  function LastSupplied(ps: seq<map<string, Handler>>, s: string): Option<Handler>
    decreases |ps|
  {
    if ps == [] then None
    else if s in ps[|ps| - 1] then Some(ps[|ps| - 1][s])
    else LastSupplied(ps[..|ps| - 1], s)
  }

  /** After any number of `init` calls a slot holds the callback supplied
      last, or what it held before if none was supplied; in particular a slot
      no call ever supplied still holds its stub. */
  lemma {:induction false} InitKeepsLastSupplied(slots: set<string>, t: Table, ps: seq<map<string, Handler>>, s: string)
    ensures Lookup(InitAll(slots, t, ps), s)
         == if s in slots && LastSupplied(ps, s).Some? then LastSupplied(ps, s) else Lookup(t, s)
    decreases |ps|
  {
    if ps != [] {
      InitKeepsLastSupplied(slots, t, ps[..|ps| - 1], s);
    }
  }
}
