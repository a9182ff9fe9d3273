/** Connection states as the pools see them: words that change without any pool's mutex. */
module Network {
  import opened Allocation

  /** A gateway connection is Connecting from before anyone can see it. */
  datatype ConnState = Active | Connecting | Closed

  /** Connecting and Active alternate freely, anything may close, and Closed is final. */
  predicate Evolves(live: map<Conn, ConnState>, live': map<Conn, ConnState>) {
    forall c | c in live :: c in live' && (live[c] == Closed ==> live'[c] == Closed)
  }

  /** The state a step may see for c while the states go from live to live'. */
  ghost predicate Sees(live: map<Conn, ConnState>, live': map<Conn, ConnState>, c: Conn, seen: ConnState) {
    && c in live && c in live'
    && (live[c] == Closed ==> seen == Closed)
    && (seen == Closed ==> live'[c] == Closed)
  }

  /** What was read, in order. */
  type Log = seq<(Conn, ConnState)>

  /** Between two moments, c was read and its state was s. */
  ghost predicate Read(before: Log, after: Log, c: Conn, s: ConnState) {
    before <= after && exists i :: |before| <= i < |after| && after[i] == (c, s)
  }

  lemma ReadLater(before: Log, after: Log, later: Log, c: Conn, s: ConnState)
    requires Read(before, after, c, s) && after <= later
    ensures Read(before, later, c, s)
  {
    var i :| |before| <= i < |after| && after[i] == (c, s);
    assert later[i] == (c, s);
  }

  lemma ReadNow(before: Log, after: Log, c: Conn, s: ConnState)
    requires before <= after
    ensures Read(before, after + [(c, s)], c, s)
  {
    assert (after + [(c, s)])[|after|] == (c, s);
  }

  /** Any read may come after any number of moves by other goroutines. */
  class StateWords {
    var live: map<Conn, ConnState>
    ghost var log: Log

    constructor ()
      ensures live == map[] && log == []
    {
      live, log := map[], [];
    }

    method State(c: Conn) returns (seen: ConnState)
      requires c in live
      modifies this
      ensures Evolves(old(live), live) && seen == live[c] && log == old(log) + [(c, seen)]
    {
      var moved: map<Conn, ConnState> := *;
      if Evolves(live, moved) {
        live := moved;
      }
      seen := live[c];
      log := log + [(c, seen)];
    }
  }
}
