/**
  The connections of the direct server and the count of authenticated connections per peer. A handler
  leaves the table before it gives its place back, and suspends in between.
*/
module DirectServer {
  import Sets
  import opened Wrappers

  const MAX_CONNECTIONS := 16
  const MAX_PER_PEER := 2

  type ConnectionId = string
  datatype PeerKey = PeerKey(deviceId: string, epoch: int)

  // `open`: still in the table of connections; `key`: the place it holds, once authenticated; a handler
  // cancelled before its cleanup starts is no longer alive, and leaves the table and its place as they are.
  datatype Handler = Handler(open: bool, key: Option<PeerKey>, alive: bool)

  datatype Server = Server(
    handlers: map<ConnectionId, Handler>,
    counts: map<PeerKey, nat>,
    abandoned: multiset<PeerKey>)      // history: places of handlers cancelled during their cleanup

  function OpenIds(s: Server): set<ConnectionId> { set id | id in s.handlers && s.handlers[id].open }

  // The handlers that hold a place of this peer.
  function Holders(hs: map<ConnectionId, Handler>, key: PeerKey): set<ConnectionId> {
    set id | id in hs && hs[id].key == Some(key)
  }

  // Those of them that will never give it back.
  function DeadHolders(hs: map<ConnectionId, Handler>, key: PeerKey): set<ConnectionId> {
    set id | id in hs && hs[id].key == Some(key) && !hs[id].alive
  }

  function CountOf(s: Server, key: PeerKey): nat { if key in s.counts then s.counts[key] else 0 }

  function Accept(s: Server, id: ConnectionId): (Server, bool) {
    if |OpenIds(s)| >= MAX_CONNECTIONS then (s, false)
    else (s.(handlers := s.handlers[id := Handler(true, None, true)]), true)
  }

  // The peer has proved its key; a refusal ends the handler.
  function Authenticate(s: Server, id: ConnectionId, key: PeerKey): (Server, bool)
    requires id in s.handlers
  {
    if CountOf(s, key) >= MAX_PER_PEER then (s, false)
    else (s.(handlers := s.handlers[id := s.handlers[id].(key := Some(key))], counts := s.counts[key := CountOf(s, key) + 1]), true)
  }

  function LeaveTable(s: Server, id: ConnectionId): Server
    requires id in s.handlers
  {
    s.(handlers := s.handlers[id := s.handlers[id].(open := false)])
  }

  function GiveBack(s: Server, id: ConnectionId): Server
    requires id in s.handlers
  {
    match s.handlers[id].key
    case None => s.(handlers := s.handlers - {id})
    case Some(key) =>
      s.(handlers := s.handlers - {id},
         counts := if CountOf(s, key) <= 1 then s.counts - {key} else s.counts[key := CountOf(s, key) - 1])
  }

  // A cleanup cancelled while it suspends never gives its place back.
  function Abandon(s: Server, id: ConnectionId): Server
    requires id in s.handlers
  {
    s.(handlers := s.handlers - {id},
       abandoned := match s.handlers[id].key case None => s.abandoned case Some(key) => s.abandoned + multiset{key})
  }

  // A handler cancelled while it waits for its watchdog, with its cleanup still to come.
  function Die(s: Server, id: ConnectionId): Server
    requires id in s.handlers
  {
    s.(handlers := s.handlers[id := s.handlers[id].(alive := false)])
  }

  class DirectConnections {
    var handlers: map<ConnectionId, Handler>
    var authenticatedCounts: map<PeerKey, nat>
    var abandoned: multiset<PeerKey>

    function Snapshot(): Server
      reads this
    {
      Server(handlers, authenticatedCounts, abandoned)
    }

    constructor ()
      ensures Snapshot() == Server(map[], map[], multiset{})
    {
      handlers, authenticatedCounts, abandoned := map[], map[], multiset{};
    }

    method AcceptConnection(id: ConnectionId) returns (accepted: bool)
      modifies this
      ensures (Snapshot(), accepted) == Accept(old(Snapshot()), id)
    {
      if |OpenIds(Snapshot())| >= MAX_CONNECTIONS { return false; }
      handlers := handlers[id := Handler(true, None, true)];
      return true;
    }

    method TakePlace(id: ConnectionId, key: PeerKey) returns (taken: bool)
      requires id in handlers
      modifies this
      ensures (Snapshot(), taken) == Authenticate(old(Snapshot()), id, key)
    {
      var count := if key in authenticatedCounts then authenticatedCounts[key] else 0;
      if count >= MAX_PER_PEER { return false; }
      handlers := handlers[id := handlers[id].(key := Some(key))];
      authenticatedCounts := authenticatedCounts[key := count + 1];
      return true;
    }

    method BeginCleanup(id: ConnectionId)
      requires id in handlers
      modifies this
      ensures Snapshot() == LeaveTable(old(Snapshot()), id)
    {
      handlers := handlers[id := handlers[id].(open := false)];
    }

    method EndCleanup(id: ConnectionId)
      requires id in handlers
      modifies this
      ensures Snapshot() == GiveBack(old(Snapshot()), id)
    {
      var key := handlers[id].key;
      if key.Some? {
        var count := if key.value in authenticatedCounts then authenticatedCounts[key.value] else 0;
        if count <= 1 {
          authenticatedCounts := authenticatedCounts - {key.value};
        } else {
          authenticatedCounts := authenticatedCounts[key.value := count - 1];
        }
      }
      handlers := handlers - {id};
    }
  }

  // ---- Runs ----

  datatype Step =
    | AcceptStep(id: ConnectionId)
    | AuthenticateStep(id: ConnectionId, key: PeerKey)
    | LeaveStep(id: ConnectionId)
    | GiveBackStep(id: ConnectionId)
    | AbandonStep(id: ConnectionId)
    | DieStep(id: ConnectionId)

  // Identifiers are fresh; a handler authenticates at most once, and cleans up after leaving the table.
  function Apply(s: Server, step: Step): Server {
    match step
    case AcceptStep(id) => if id in s.handlers then s else Accept(s, id).0
    case AuthenticateStep(id, key) =>
      if IsAlive(s, id) && s.handlers[id].open && s.handlers[id].key.None? then Authenticate(s, id, key).0 else s
    case LeaveStep(id) => if IsAlive(s, id) then LeaveTable(s, id) else s
    case GiveBackStep(id) => if IsAlive(s, id) && !s.handlers[id].open then GiveBack(s, id) else s
    case AbandonStep(id) => if IsAlive(s, id) && !s.handlers[id].open then Abandon(s, id) else s
    case DieStep(id) => if IsAlive(s, id) && s.handlers[id].open then Die(s, id) else s
  }

  predicate IsAlive(s: Server, id: ConnectionId) { id in s.handlers && s.handlers[id].alive }

  function Run(s: Server, steps: seq<Step>): Server
    decreases |steps|
  {
    if steps == [] then s else Run(Apply(s, steps[0]), steps[1..])
  }

  // The count of a peer is the number of handlers that hold a place, plus those that never gave it back.
  ghost predicate Counted(s: Server, key: PeerKey) {
    && CountOf(s, key) == |Holders(s.handlers, key)| + s.abandoned[key] <= MAX_PER_PEER
    && (key in s.counts ==> s.counts[key] > 0)
  }

  ghost predicate ServerInv(s: Server) {
    |OpenIds(s)| <= MAX_CONNECTIONS && forall key :: Counted(s, key)
  }

  lemma HoldersSet(hs: map<ConnectionId, Handler>, id: ConnectionId, h: Handler, key: PeerKey)
    ensures Holders(hs[id := h], key) == if h.key == Some(key) then Holders(hs, key) + {id} else Holders(hs, key) - {id}
  {
  }

  lemma HoldersRemoved(hs: map<ConnectionId, Handler>, id: ConnectionId, key: PeerKey)
    ensures Holders(hs - {id}, key) == Holders(hs, key) - {id}
  {
  }

  lemma OpenAfter(s: Server, step: Step)
    requires |OpenIds(s)| <= MAX_CONNECTIONS
    ensures |OpenIds(Apply(s, step))| <= MAX_CONNECTIONS
  {
    var s' := Apply(s, step);
    if step.AcceptStep? {
      assert OpenIds(s') <= OpenIds(s) + {step.id};
      Sets.SubsetSize(OpenIds(s'), OpenIds(s) + {step.id});
    } else {
      assert OpenIds(s') <= OpenIds(s);
      Sets.SubsetSize(OpenIds(s'), OpenIds(s));
    }
  }

  // A handler that holds no other place keeps the holders of every other peer.
  lemma TakenCounted(s: Server, id: ConnectionId, key: PeerKey, taken: PeerKey)
    requires Counted(s, key) && id in s.handlers && s.handlers[id].key.None?
    ensures Counted(Authenticate(s, id, taken).0, key)
  {
    HoldersSet(s.handlers, id, s.handlers[id].(key := Some(taken)), key);
    assert id !in Holders(s.handlers, key);
    hide Holders;
  }

  lemma AcceptedCounted(s: Server, id: ConnectionId, key: PeerKey)
    requires Counted(s, key) && id !in s.handlers
    ensures Counted(Accept(s, id).0, key)
  {
    HoldersSet(s.handlers, id, Handler(true, None, true), key);
    assert id !in Holders(s.handlers, key);
    hide Holders, OpenIds;
  }

  lemma LeftCounted(s: Server, id: ConnectionId, key: PeerKey)
    requires Counted(s, key) && id in s.handlers
    ensures Counted(LeaveTable(s, id), key)
  {
    HoldersSet(s.handlers, id, s.handlers[id].(open := false), key);
    assert id in Holders(s.handlers, key) <==> s.handlers[id].key == Some(key);
    hide Holders;
  }

  lemma DeadCounted(s: Server, id: ConnectionId, key: PeerKey)
    requires Counted(s, key) && id in s.handlers
    ensures Counted(Die(s, id), key)
  {
    HoldersSet(s.handlers, id, s.handlers[id].(alive := false), key);
    assert id in Holders(s.handlers, key) <==> s.handlers[id].key == Some(key);
    hide Holders;
  }

  lemma GivenBackCounted(s: Server, id: ConnectionId, key: PeerKey)
    requires Counted(s, key) && id in s.handlers
    ensures Counted(GiveBack(s, id), key) && Counted(Abandon(s, id), key)
  {
    HoldersRemoved(s.handlers, id, key);
    assert id in Holders(s.handlers, key) <==> s.handlers[id].key == Some(key);
    hide Holders;
  }

  lemma CountedAfter(s: Server, step: Step, key: PeerKey)
    requires Counted(s, key)
    ensures Counted(Apply(s, step), key)
  {
    hide Counted, Accept, Authenticate, LeaveTable, GiveBack, Abandon, Die;
    match step
    case AcceptStep(id) => if id !in s.handlers { AcceptedCounted(s, id, key); }
    case AuthenticateStep(id, k) =>
      if id in s.handlers && s.handlers[id].key.None? { TakenCounted(s, id, key, k); }
    case LeaveStep(id) => if id in s.handlers { LeftCounted(s, id, key); }
    case GiveBackStep(id) => if id in s.handlers { GivenBackCounted(s, id, key); }
    case AbandonStep(id) => if id in s.handlers { GivenBackCounted(s, id, key); }
    case DieStep(id) => if id in s.handlers { DeadCounted(s, id, key); }
  }

  /**
    Over every run: at most 16 connections are open, and the count kept for a peer is exactly the number
    of handlers holding a place, at most two, plus the places lost to cancelled cleanups. So places are
    neither forgotten nor invented, and without such a cancellation a peer with no handler has no count.
  */
  lemma {:induction false} PlacesAreCounted(s: Server, steps: seq<Step>)
    requires ServerInv(s)
    ensures ServerInv(Run(s, steps))
    decreases |steps|
  {
    if steps != [] {
      OpenAfter(s, steps[0]);
      forall key ensures Counted(Apply(s, steps[0]), key) {
        CountedAfter(s, steps[0], key);
      }
      PlacesAreCounted(Apply(s, steps[0]), steps[1..]);
    }
  }

  // What was lost by cancellation so far.
  function Lost(s: Server, key: PeerKey): nat { s.abandoned[key] + |DeadHolders(s.handlers, key)| }

  lemma DeadStayDead(s: Server, step: Step, key: PeerKey)
    ensures DeadHolders(s.handlers, key) <= DeadHolders(Apply(s, step).handlers, key)
    ensures s.abandoned[key] <= Apply(s, step).abandoned[key]
  {
  }

  lemma {:induction false} LossesOnlyGrow(s: Server, steps: seq<Step>, key: PeerKey)
    ensures Lost(Run(s, steps), key) >= Lost(s, key)
    decreases |steps|
  {
    hide Apply, DeadHolders;
    if steps != [] {
      DeadStayDead(s, steps[0], key);
      Sets.SubsetSize(DeadHolders(s.handlers, key), DeadHolders(Apply(s, steps[0]).handlers, key));
      LossesOnlyGrow(Apply(s, steps[0]), steps[1..], key);
    }
  }

  /**
    No place is lost unless a cleanup is cancelled: then every count is the number of its holders, and
    unless a handler is cancelled before its cleanup all of them can still give theirs back.
  */
  lemma {:induction false} NoCancellationNoLoss(s: Server, steps: seq<Step>)
    requires ServerInv(s) && s.abandoned == multiset{} && forall i :: 0 <= i < |steps| ==> !steps[i].AbandonStep?
    ensures Run(s, steps).abandoned == multiset{}
    ensures forall key :: CountOf(Run(s, steps), key) == |Holders(Run(s, steps).handlers, key)|
    ensures (forall id :: id in s.handlers ==> s.handlers[id].alive) && (forall i :: 0 <= i < |steps| ==> !steps[i].DieStep?)
            ==> forall id :: id in Run(s, steps).handlers ==> Run(s, steps).handlers[id].alive
    decreases |steps|
  {
    hide Holders;
    if steps == [] {
      forall key ensures CountOf(s, key) == |Holders(s.handlers, key)| {
        assert Counted(s, key);
      }
    } else {
      PlacesAreCounted(s, [steps[0]]);
      assert Run(s, [steps[0]]) == Run(Apply(s, steps[0]), [steps[0]][1..]) == Apply(s, steps[0]);
      NoCancellationNoLoss(Apply(s, steps[0]), steps[1..]);
    }
  }

  /**
    What cancellations would cost. Nothing in the server cancels a handler; but should its task be
    cancelled from outside once it holds a place, before its cleanup starts or within it, twice for one
    peer, then no connection of that peer is ever authenticated again, whatever happens afterwards.
  */
  lemma TwoLossesLockOut(s: Server, steps: seq<Step>, key: PeerKey, id: ConnectionId)
    requires ServerInv(s) && Lost(s, key) >= MAX_PER_PEER
    ensures id in Run(s, steps).handlers ==> !Authenticate(Run(s, steps), id, key).1
  {
    PlacesAreCounted(s, steps);
    LossesOnlyGrow(s, steps, key);
    var s' := Run(s, steps);
    assert Counted(s', key);
    assert DeadHolders(s'.handlers, key) <= Holders(s'.handlers, key);
    Sets.SubsetSize(DeadHolders(s'.handlers, key), Holders(s'.handlers, key));
  }

  /** A connection is accepted if and only if fewer than 16 are open, and is then open, alive and without a place. */
  lemma AcceptIff(s: Server, id: ConnectionId)
    ensures var (s', accepted) := Accept(s, id);
      && (accepted <==> |set c | c in s.handlers && s.handlers[c].open| < 16)
      && s' == if accepted then s.(handlers := s.handlers[id := Handler(true, None, true)]) else s
  {
    assert OpenIds(s) == set c | c in s.handlers && s.handlers[c].open;
  }

  /**
    A peer is given a place if and only if its handlers that hold one, and its places lost for good, are fewer
    than two; the handler then holds it, and no other handler or count changes.
  */
  lemma PlaceIff(s: Server, id: ConnectionId, key: PeerKey)
    requires ServerInv(s) && id in s.handlers && s.handlers[id].key.None?
    ensures var (s', taken) := Authenticate(s, id, key);
      && (taken <==> |Holders(s.handlers, key)| + s.abandoned[key] < 2) && (!taken ==> s' == s)
      && (taken ==>
            && s'.handlers == s.handlers[id := s.handlers[id].(key := Some(key))] && s'.abandoned == s.abandoned
            && Holders(s'.handlers, key) == Holders(s.handlers, key) + {id}
            && forall k :: k != key ==> CountOf(s', k) == CountOf(s, k))
  {
    assert Counted(s, key);
    HoldersSet(s.handlers, id, s.handlers[id].(key := Some(key)), key);
    hide Holders;
  }

  /**
    A place that is given back can be taken again: when a handler's cleanup ends, one place of its peer is free
    unless it was lost, and any other connection of that peer is authenticated.
  */
  lemma PlaceComesBack(s: Server, id: ConnectionId, key: PeerKey, next: ConnectionId)
    requires ServerInv(s) && IsAlive(s, id) && !s.handlers[id].open && s.handlers[id].key == Some(key)
    requires next in s.handlers && next != id && s.handlers[next].key.None?
    ensures var s' := Apply(s, GiveBackStep(id));
      && id !in s'.handlers && Holders(s'.handlers, key) == Holders(s.handlers, key) - {id}
      && next in s'.handlers && Authenticate(s', next, key).1
  {
    PlacesAreCounted(s, [GiveBackStep(id)]);
    var s' := Apply(s, GiveBackStep(id));
    assert [GiveBackStep(id)][1..] == [];
    assert Run(s, [GiveBackStep(id)]) == Run(s', []) == s';
    HoldersRemoved(s.handlers, id, key);
    assert id in Holders(s.handlers, key);
    assert Counted(s, key) && Counted(s', key);
    hide Holders;
  }
}
