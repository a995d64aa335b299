/**
  The client of `LinkClient` against a relay, over a socket that loses everything in flight when it
  breaks. One `System` is the client, the relay, the two FIFO directions of the current socket, and
  a history of who asked for what. `Run` plays any list of steps in any order; a step that is not
  enabled does nothing, so a statement about every list is a statement about every interleaving.
*/
module LinkProtocol {
  import opened LinkClient
  import opened Numbers
  import opened Wrappers

  datatype Control =
    | Ready(ready: SocketReady)
    | Accepted(id: FrameId, sequence: int)
    | Backpressure(id: FrameId, sequence: int)

  datatype Wire = Wire(
    open: bool,            // the client holds a socket
    up: seq<Frame>,        // written by the client, not yet read by the relay
    down: seq<Control>,    // written by the relay, not yet read by the client
    wrote: set<FrameId>)   // frames written to the newest socket
  {
    predicate Unread() { down != [] && down[0].Ready? }
  }

  datatype Relay = Relay(
    last: int,             // last admitted sequence
    lastId: Option<FrameId>,
    admitted: seq<Frame>,  // what was admitted during the run, in order
    baseLast: int,         // where the relay stood before the run
    baseId: Option<FrameId>)

  datatype History = History(
    frames: map<FrameId, Frame>,    // every frame ever built
    owner: map<FrameId, CallId>,    // the call a frame was built for
    newest: map<CallId, FrameId>,   // the latest frame of a call
    request: map<CallId, Request>,  // what the call was given
    nextFrame: FrameId,
    nextCall: CallId,
    baseFrame: FrameId)             // identifiers below this one were drawn before the run

  datatype System = System(cfg: Config, t: Transport, wire: Wire, relay: Relay, h: History)

  datatype Step =
    | Begin(request: Request)                  // send_payload stores its frame, its entry checks long past
    | Write                                    // a client task writes the durable pending frame
    | Fail(call: CallId, preserve: bool)       // timeout, send error or cancellation
    | End(call: CallId)                        // send_payload returns or raises
    | Deny                                     // the relay revoked the device
    | RelayTake(admit: bool)                   // the relay reads one frame; false: storage is full
    | Receive                                  // the client reads one control message
    | Lose                                     // the client loses its socket
    | Connect(ack: nat, capabilities: set<Capability>)
    | Restart                                  // a new process over the durable state

  // A frame enters the history as the newest of its call.
  function Registered(h: History, f: Frame, call: CallId): History {
    h.(frames := h.frames[f.id := f], owner := h.owner[f.id := call], newest := h.newest[call := f.id],
       nextFrame := h.nextFrame + 1)
  }

  function Opened(h: History, request: Request): History {
    h.(request := h.request[h.nextCall := request], nextCall := h.nextCall + 1)
  }

  function Begun(s: System, request: Request): System {
    if s.t.pending.Some? then s
    else
      s.(t := AfterSendBegun(s.cfg, s.t, request, s.h.nextFrame, s.h.nextCall),
         h := Registered(Opened(s.h, request), FrameFor(s.cfg, s.t, request, s.h.nextFrame), s.h.nextCall))
  }

  // All three write sites (the send itself, the replay after readiness, the backpressure retry)
  // write the frame that is pending at that moment; none of them checks that readiness was read.
  function Written(w: Wire, pending: Option<Frame>): Wire {
    if w.open && pending.Some?
    then w.(up := w.up + [pending.value], wrote := w.wrote + {pending.value.id})
    else w
  }

  // Input the client has already written stays readable for the relay after the client is gone.
  function Lost(w: Wire): Wire { w.(open := false, down := []) }

  function Reply(w: Wire, c: Control): Wire {
    if w.open then w.(down := w.down + [c]) else w
  }

  function Popped(w: Wire): Wire
    requires w.up != []
  {
    w.(up := w.up[1..])
  }

  function Admitting(r: Relay, f: Frame): Relay {
    r.(last := f.sequence, lastId := Some(f.id), admitted := r.admitted + [f])
  }

  // The relay admits only the next sequence and acknowledges an exact repeat of its last frame.
  function Taken(s: System, admit: bool): System {
    if s.wire.up == [] then s
    else
      var f, w := s.wire.up[0], Popped(s.wire);
      if f.sequence == s.relay.last && Some(f.id) == s.relay.lastId
      then s.(wire := Reply(w, Accepted(f.id, f.sequence)))
      else if f.sequence != s.relay.last + 1 then s.(wire := w)
      else if !admit then s.(wire := Reply(w, Backpressure(f.id, f.sequence)))
      else s.(wire := Reply(w, Accepted(f.id, f.sequence)), relay := Admitting(s.relay, f))
  }

  // A new socket: the relay drops whatever the old one still held, then reports where it stands.
  function Connected(s: System, ack: nat, capabilities: set<Capability>): System {
    if s.wire.open then s
    else
      var ready := SocketReady(s.cfg.deviceId, s.cfg.epoch, s.relay.last, s.relay.lastId, ack, capabilities);
      s.(wire := Wire(true, [], [Ready(ready)], {}))
  }

  // What reading a control message leads to, besides the client's new state.
  datatype Verdict = Handled | Raised | Rebasing

  function Reconciled(s: System, t': Transport, verdict: Verdict): System {
    match verdict
    case Handled => s.(t := t')
    case Raised => s.(t := t', wire := Lost(s.wire))
    case Rebasing =>
      if s.t.pending.Some? && t'.pending.Some? && s.t.pending.value.id in s.h.owner
      then s.(t := t', h := Registered(s.h, t'.pending.value, s.h.owner[s.t.pending.value.id]))
      else s.(t := t')
  }

  function Reading(s: System, c: Control): (Transport, Verdict) {
    match c
    case Ready(r) =>
      var branch := BranchFor(s.cfg, s.t, r);
      (AfterReady(s.cfg, s.t, r, s.h.nextFrame),
       if branch.Refused() then Raised else if branch == Rebase then Rebasing else Handled)
    case Accepted(id, sequence) =>
      (AfterAccepted(s.t, id, sequence), if AcceptedError(s.t, id, sequence).Some? then Raised else Handled)
    case Backpressure(id, sequence) =>
      (AfterBackpressure(s.cfg, s.t, id, sequence, true),
       if BackpressureError(s.cfg, s.t, id, sequence).Some? then Raised else Handled)
  }

  function Received(s: System): System {
    if !s.wire.open || s.wire.down == [] then s
    else
      var (t', verdict) := Reading(s, s.wire.down[0]);
      Reconciled(s.(wire := s.wire.(down := s.wire.down[1..])), t', verdict)
  }

  function Apply(s: System, step: Step): System {
    match step
    case Begin(request) => Begun(s, request)
    case Write => s.(wire := Written(s.wire, s.t.pending))
    case Fail(call, preserve) => s.(t := AfterSendFailed(s.t, call, preserve))
    case End(call) => if call in s.h.newest then s.(t := AfterSendEnded(s.t, call)) else s
    case Deny => s.(t := AfterDenied(s.t))
    case RelayTake(admit) => Taken(s, admit)
    case Receive => Received(s)
    case Lose => s.(wire := Lost(s.wire))
    case Connect(ack, capabilities) => Connected(s, ack, capabilities)
    case Restart => s.(t := AfterRestart(s.t), wire := Lost(s.wire))
  }

  function Run(s: System, steps: seq<Step>): System
    decreases |steps|
  {
    if steps == [] then s else Run(Apply(s, steps[0]), steps[1..])
  }

  /**
    A process starting over arbitrary stored counters, failure mark and pending frame, with a relay
    anywhere: the frame's sequence may disagree with the relay in any way. Call 0 owns a pending
    frame stored by an earlier process.
  */
  predicate Initial(s: System) {
    && s.wire == Wire(false, [], [], {})
    && s.t.accepted == map[] && s.t.settled == map[]
    && s.relay.admitted == [] && s.relay.baseLast == s.relay.last && s.relay.baseId == s.relay.lastId
    && s.h.baseFrame == s.h.nextFrame && s.h.nextCall == 1
    && (s.relay.lastId.Some? ==> s.relay.lastId.value < s.h.nextFrame)
    && match s.t.pending
       case None => s.h.frames == map[] && s.h.owner == map[] && s.h.newest == map[] && s.h.request == map[]
       case Some(p) =>
         && p.id < s.h.nextFrame
         && s.h.frames == map[p.id := p] && s.h.owner == map[p.id := 0] && s.h.newest == map[0 := p.id]
         && s.h.request == map[0 := Request(Open(p.ciphertext), p.target, p.presentation, false)]
  }

  // ---- The coupling invariant ----

  predicate Known(h: History, f: Frame) { f.id in h.frames && h.frames[f.id] == f }

  predicate IsFor(h: History, f: Frame, call: CallId) { f.id in h.owner && h.owner[f.id] == call }

  // Two frames built for one call: only the newest may still be admitted.
  predicate Newest(h: History, f: Frame) {
    f.id in h.owner && h.owner[f.id] in h.newest && h.newest[h.owner[f.id]] == f.id
  }

  // The frame carries what its call was given, to the recipient it was given for.
  predicate Carries(f: Frame, request: Request) {
    Open(f.ciphertext) == request.payload && f.target == request.target
    && (f.presentation ==> request.transient)
  }

  ghost predicate HistoryOk(h: History) {
    && h.frames.Keys == h.owner.Keys && h.newest.Keys <= h.request.Keys
    && (forall id :: id in h.frames ==>
          && h.frames[id].id == id && id < h.nextFrame
          && h.owner[id] in h.newest && Carries(h.frames[id], h.request[h.owner[id]]))
    && (forall c :: c in h.request ==> c < h.nextCall)
    && (forall c :: c in h.newest ==> h.newest[c] in h.owner && h.owner[h.newest[c]] == c)
    // Identifiers drawn before the run never name a frame of a call made during it.
    && h.baseFrame <= h.nextFrame && 1 <= h.nextCall
    && (forall id :: id in h.owner ==> h.owner[id] == 0 || h.baseFrame <= id)
  }

  ghost predicate ClientOk(h: History, t: Transport) {
    && (t.pending.Some? ==> Known(h, t.pending.value) && Newest(h, t.pending.value))
    && (forall id :: id in t.accepted ==>
          id in h.owner && h.owner[id] == t.accepted[id] && t.accepted[id] in h.newest
          && h.newest[t.accepted[id]] == id)
  }

  ghost predicate RelayOk(h: History, r: Relay) {
    && r.last == r.baseLast + |r.admitted|
    && (r.admitted == [] ==> r.lastId == r.baseId)
    && (r.admitted != [] ==> r.lastId == Some(r.admitted[|r.admitted| - 1].id))
    && (r.baseId.Some? ==> r.baseId.value < h.baseFrame)
    && (forall i :: 0 <= i < |r.admitted| ==>
          Known(h, r.admitted[i]) && Newest(h, r.admitted[i]) && r.admitted[i].sequence == r.baseLast + 1 + i)
  }

  // Nothing up to position i is the frame the relay would admit next.
  ghost predicate Blocked(up: seq<Frame>, last: int, i: nat)
    requires i < |up|
  {
    forall j :: 0 <= j <= i ==> up[j].sequence != last + 1
  }

  lemma BlockedPop(up: seq<Frame>, last: int)
    requires up != []
    ensures forall i :: 0 <= i < |up| - 1 && Blocked(up, last, i + 1) ==> Blocked(up[1..], last, i)
    ensures forall i :: 0 <= i < |up| && Blocked(up, last, i) ==> up[0].sequence != last + 1
  {
    forall i | 0 <= i < |up| - 1 && Blocked(up, last, i + 1) ensures Blocked(up[1..], last, i) {
      assert forall j :: 0 <= j <= i ==> up[1..][j] == up[j + 1];
    }
  }

  // A superseded frame still in flight sits behind nothing the relay could admit.
  ghost predicate FlightOk(h: History, w: Wire, last: int) {
    && (forall i :: 0 <= i < |w.up| ==> Known(h, w.up[i]) && w.up[i].id in w.wrote)
    && (forall i :: 0 <= i < |w.up| && !Newest(h, w.up[i]) ==> Blocked(w.up, last, i))
  }

  // Behind the first copy of the pending frame there are only copies of it, and once it is
  // admitted nothing else is in flight.
  ghost predicate PendingOk(pending: Option<Frame>, up: seq<Frame>, r: Relay) {
    pending.Some? ==>
      var p := pending.value;
      && (forall i, j :: 0 <= i < j < |up| && up[i] == p ==> up[j] == p)
      && (p in r.admitted ==>
            r.lastId == Some(p.id) && r.last == p.sequence && forall i :: 0 <= i < |up| ==> up[i] == p)
  }

  // While the socket's readiness is unread: only the pending frame was written to it, and the
  // relay is where it said, or one further by admitting exactly that frame.
  ghost predicate UnreadOk(pending: Option<Frame>, w: Wire, r: Relay) {
    && (w.down != [] ==> w.open)
    && (forall i :: 1 <= i < |w.down| ==> !w.down[i].Ready?)
    && (w.Unread() ==>
          var ready := w.down[0].ready;
          && (forall i :: 0 <= i < |w.up| ==> pending == Some(w.up[i]))
          && ((r.last == ready.lastInboundSequence && r.lastId == ready.lastInboundFrameId)
              || (pending.Some? && r.last == ready.lastInboundSequence + 1 == pending.value.sequence
                  && pending.value in r.admitted && pending.value.id in w.wrote)))
  }

  ghost predicate Admitted(r: Relay, id: FrameId) {
    Some(id) == r.baseId || exists i :: 0 <= i < |r.admitted| && r.admitted[i].id == id
  }

  ghost predicate RepliesOk(r: Relay, down: seq<Control>) {
    && (forall i :: 0 <= i < |down| && down[i].Accepted? ==> Admitted(r, down[i].id))
    && (forall i :: 0 <= i < |down| && down[i].Ready? && down[i].ready.lastInboundFrameId.Some? ==>
          Admitted(r, down[i].ready.lastInboundFrameId.value))
  }

  predicate ByReadiness(o: Outcome) { o in {DeliveryFailed, DirectedRetired} }

  ghost predicate OutcomesOk(h: History, r: Relay, t: Transport) {
    && (forall c :: c in t.settled ==> c in h.newest)
    && (forall c :: c in t.settled && t.settled[c] == Acknowledged ==> Admitted(r, h.newest[c]))
    && (t.pending.Some? && t.pending.value.id in h.owner && h.owner[t.pending.value.id] in t.settled ==>
          var o := t.settled[h.owner[t.pending.value.id]];
          o != Acknowledged && !ByReadiness(o))
  }

  ghost predicate Inv(s: System) {
    && HistoryOk(s.h) && ClientOk(s.h, s.t) && RelayOk(s.h, s.relay) && FlightOk(s.h, s.wire, s.relay.last)
    && PendingOk(s.t.pending, s.wire.up, s.relay) && UnreadOk(s.t.pending, s.wire, s.relay)
    && RepliesOk(s.relay, s.wire.down) && OutcomesOk(s.h, s.relay, s.t)
  }

  lemma InitialInv(s: System)
    requires Initial(s)
    ensures Inv(s)
  {
  }

  // ---- Steps that only touch the client ----

  // A client step that builds no frame: futures may settle, map entries and the pending frame may go.
  ghost predicate ShrinksTo(s: System, t': Transport) {
    && (t'.pending == s.t.pending || (t'.pending.None? && !s.wire.Unread()))
    && (forall id :: id in t'.accepted ==> id in s.t.accepted && t'.accepted[id] == s.t.accepted[id])
    && (forall c :: c in t'.settled && !(c in s.t.settled && t'.settled[c] == s.t.settled[c]) ==>
          && c in s.h.newest
          && (t'.settled[c] == Acknowledged ==> Admitted(s.relay, s.h.newest[c]))
          && (t'.settled[c] == Acknowledged || ByReadiness(t'.settled[c]) ==> t'.pending.None?))
  }

  lemma ShrunkInv(s: System, t': Transport)
    requires Inv(s) && ShrinksTo(s, t')
    ensures Inv(s.(t := t'))
  {
  }

  lemma LostInv(s: System)
    requires Inv(s)
    ensures Inv(s.(wire := Lost(s.wire)))
  {
  }

  lemma HeadReadInv(s: System)
    requires Inv(s) && s.wire.down != []
    ensures var s' := s.(wire := s.wire.(down := s.wire.down[1..])); Inv(s') && !s'.wire.Unread()
  {
  }

  lemma FailedShrinks(s: System, call: CallId, preserve: bool)
    requires Inv(s)
    ensures ShrinksTo(s, AfterSendFailed(s.t, call, preserve))
  {
  }

  lemma EndedShrinks(s: System, call: CallId)
    requires Inv(s) && call in s.h.newest
    ensures ShrinksTo(s, AfterSendEnded(s.t, call))
  {
  }

  lemma RestartShrinks(s: System)
    requires Inv(s)
    ensures ShrinksTo(s, AfterRestart(s.t))
  {
  }

  lemma DeniedShrinks(s: System)
    requires Inv(s)
    ensures ShrinksTo(s, AfterDenied(s.t))
  {
    forall call | call in s.t.accepted.Values ensures call in s.h.newest {
      var id :| id in s.t.accepted && s.t.accepted[id] == call;
    }
  }

  // ---- A frame is built ----

  lemma RegisteredHistory(h: History, f: Frame, call: CallId)
    requires HistoryOk(h) && f.id == h.nextFrame && call in h.request && Carries(f, h.request[call])
    ensures HistoryOk(Registered(h, f, call))
  {
    var h' := Registered(h, f, call);
    forall id | id in h'.frames
      ensures h'.frames[id].id == id && id < h'.nextFrame && h'.owner[id] in h'.newest
              && Carries(h'.frames[id], h'.request[h'.owner[id]])
    {
      if id != f.id {
        assert id in h.frames;
      }
    }
    forall c | c in h'.newest ensures h'.newest[c] in h'.owner && h'.owner[h'.newest[c]] == c {
      if c != call {
        assert c in h.newest && h.newest[c] in h.frames;
      }
    }
  }

  // Frames of other calls stay as new or as superseded as they were.
  lemma RegisteredKeeps(h: History, f: Frame, call: CallId, g: Frame)
    requires HistoryOk(h) && f.id == h.nextFrame && Known(h, g)
    ensures Known(Registered(h, f, call), g) && g != f
    ensures Newest(Registered(h, f, call), g) == (Newest(h, g) && h.owner[g.id] != call)
  {
    assert g.id in h.frames && g.id < h.nextFrame;
  }

  lemma OpenedHistory(h: History, request: Request)
    requires HistoryOk(h)
    ensures HistoryOk(Opened(h, request)) && h.nextCall !in h.newest
    ensures forall id :: id in h.owner ==> h.owner[id] != h.nextCall
  {
  }

  lemma BegunInv(s: System, request: Request)
    requires Inv(s)
    ensures Inv(Begun(s, request))
  {
    if s.t.pending.None? {
      var h' := Begun(s, request).h;
      var f := FrameFor(s.cfg, s.t, request, s.h.nextFrame);
      forall g | Known(s.h, g) ensures Known(h', g) && Newest(h', g) == Newest(s.h, g) && g != f {
        BegunKeeps(s.h, request, f, g);
      }
      SameStanding(s, h', f);
      BegunHistory(s, request);
      BegunClient(s, request);
    }
  }

  lemma BegunKeeps(h: History, request: Request, f: Frame, g: Frame)
    requires HistoryOk(h) && f.id == h.nextFrame && Known(h, g)
    ensures var h' := Registered(Opened(h, request), f, h.nextCall);
      Known(h', g) && Newest(h', g) == Newest(h, g) && g != f
  {
    OpenedHistory(h, request);
    RegisteredKeeps(Opened(h, request), f, h.nextCall, g);
  }

  lemma BegunHistory(s: System, request: Request)
    requires HistoryOk(s.h) && s.t.pending.None?
    ensures HistoryOk(Begun(s, request).h)
  {
    OpenedHistory(s.h, request);
    RegisteredHistory(Opened(s.h, request), FrameFor(s.cfg, s.t, request, s.h.nextFrame), s.h.nextCall);
  }

  // A new call and its frame: what is waiting, settled and known so far stays as it is.
  lemma BegunFutures(h: History, t: Transport, f: Frame, request: Request)
    requires HistoryOk(h) && ClientOk(h, t) && t.pending.None? && f.id == h.nextFrame
    ensures var h' := Registered(Opened(h, request), f, h.nextCall);
      ClientOk(h', t.(pending := Some(f), accepted := t.accepted[f.id := h.nextCall]))
  {
    OpenedHistory(h, request);
    hide Carries, Open;
  }

  lemma BegunOutcomes(h: History, r: Relay, t: Transport, f: Frame, request: Request)
    requires HistoryOk(h) && OutcomesOk(h, r, t) && f.id == h.nextFrame
    ensures var h' := Registered(Opened(h, request), f, h.nextCall);
      OutcomesOk(h', r, t.(pending := Some(f), accepted := t.accepted[f.id := h.nextCall]))
  {
    OpenedHistory(h, request);
    hide Carries, Open, Admitted;
  }

  lemma BegunClient(s: System, request: Request)
    requires HistoryOk(s.h) && ClientOk(s.h, s.t) && OutcomesOk(s.h, s.relay, s.t) && s.t.pending.None?
    ensures var s' := Begun(s, request); ClientOk(s'.h, s'.t) && OutcomesOk(s'.h, s'.relay, s'.t)
  {
    hide HistoryOk, ClientOk, OutcomesOk, Registered, Opened;
    var f := FrameFor(s.cfg, s.t, request, s.h.nextFrame);
    BegunFutures(s.h, s.t, f, request);
    BegunOutcomes(s.h, s.relay, s.t, f, request);
  }

  // No frame in flight or admitted changes its standing, and none of them is the new frame.
  lemma SameStanding(s: System, h': History, f: Frame)
    requires RelayOk(s.h, s.relay) && FlightOk(s.h, s.wire, s.relay.last) && h'.baseFrame == s.h.baseFrame
    requires forall g :: Known(s.h, g) ==> Known(h', g) && Newest(h', g) == Newest(s.h, g) && g != f
    requires UnreadOk(None, s.wire, s.relay)
    ensures RelayOk(h', s.relay) && FlightOk(h', s.wire, s.relay.last)
    ensures PendingOk(Some(f), s.wire.up, s.relay) && UnreadOk(Some(f), s.wire, s.relay)
  {
  }

  lemma WrittenInv(s: System)
    requires Inv(s)
    ensures Inv(s.(wire := Written(s.wire, s.t.pending)))
  {
    if s.wire.open && s.t.pending.Some? {
      var w := Written(s.wire, s.t.pending);
      forall i | 0 <= i < |w.up| && !Newest(s.h, w.up[i]) ensures Blocked(w.up, s.relay.last, i) {
        assert Blocked(s.wire.up, s.relay.last, i);
      }
    }
  }

  lemma ConnectedInv(s: System, ack: nat, capabilities: set<Capability>)
    requires Inv(s)
    ensures Inv(Connected(s, ack, capabilities))
  {
    assert s.relay.lastId.Some? ==> Admitted(s.relay, s.relay.lastId.value);
  }

  // ---- The relay reads one frame ----

  lemma PoppedInv(s: System)
    requires Inv(s) && s.wire.up != []
    ensures Inv(s.(wire := Popped(s.wire)))
  {
    BlockedPop(s.wire.up, s.relay.last);
    assert forall i :: 0 <= i < |s.wire.up| - 1 ==> s.wire.up[1..][i] == s.wire.up[i + 1];
  }

  lemma ReplyInv(s: System, c: Control)
    requires Inv(s) && !c.Ready? && (c.Accepted? ==> Admitted(s.relay, c.id))
    ensures Inv(s.(wire := Reply(s.wire, c)))
  {
  }

  lemma AdmittedGrows(r: Relay, f: Frame)
    ensures forall id: FrameId :: Admitted(r, id) ==> Admitted(Admitting(r, f), id)
    ensures Admitted(Admitting(r, f), f.id)
  {
    forall id: FrameId | Admitted(r, id) ensures Admitted(Admitting(r, f), id) {
      if Some(id) != r.baseId {
        var i :| 0 <= i < |r.admitted| && r.admitted[i].id == id;
        assert Admitting(r, f).admitted[i].id == id;
      }
    }
    assert Admitting(r, f).admitted[|r.admitted|] == f;
  }

  lemma AdmittingFlight(h: History, w: Wire, r: Relay)
    requires RelayOk(h, r) && FlightOk(h, w, r.last) && w.up != [] && w.up[0].sequence == r.last + 1
    ensures RelayOk(h, Admitting(r, w.up[0])) && FlightOk(h, Popped(w), Admitting(r, w.up[0]).last)
  {
    assert forall i :: 0 <= i < |w.up| - 1 ==> w.up[1..][i] == w.up[i + 1];
    BlockedPop(w.up, r.last);
    assert forall i :: 0 <= i < |w.up| ==> Newest(h, w.up[i]);
  }

  lemma AdmittingPending(pending: Option<Frame>, w: Wire, r: Relay)
    requires PendingOk(pending, w.up, r) && UnreadOk(pending, w, r) && w.up != [] && w.up[0].sequence == r.last + 1
    requires w.up[0].id in w.wrote
    ensures PendingOk(pending, Popped(w).up, Admitting(r, w.up[0]))
    ensures UnreadOk(pending, Popped(w), Admitting(r, w.up[0]))
  {
    assert forall i :: 0 <= i < |w.up| - 1 ==> w.up[1..][i] == w.up[i + 1];
    assert pending.Some? ==>
        (pending.value in Admitting(r, w.up[0]).admitted <==> pending.value in r.admitted || pending.value == w.up[0]);
  }

  lemma AdmittingInv(s: System)
    requires Inv(s) && s.wire.up != [] && s.wire.up[0].sequence == s.relay.last + 1
    ensures var f := s.wire.up[0];
      Inv(s.(wire := Popped(s.wire), relay := Admitting(s.relay, f))) && Admitted(Admitting(s.relay, f), f.id)
  {
    AdmittedGrows(s.relay, s.wire.up[0]);
    AdmittingFlight(s.h, s.wire, s.relay);
    AdmittingPending(s.t.pending, s.wire, s.relay);
  }

  lemma TakenInv(s: System, admit: bool)
    requires Inv(s)
    ensures Inv(Taken(s, admit))
  {
    if s.wire.up != [] {
      var f := s.wire.up[0];
      var popped := s.(wire := Popped(s.wire));
      PoppedInv(s);
      if f.sequence == s.relay.last && Some(f.id) == s.relay.lastId {
        assert Admitted(s.relay, f.id);
        ReplyInv(popped, Accepted(f.id, f.sequence));
      } else if f.sequence == s.relay.last + 1 {
        if admit {
          AdmittingInv(s);
          ReplyInv(popped.(relay := Admitting(s.relay, f)), Accepted(f.id, f.sequence));
        } else {
          ReplyInv(popped, Backpressure(f.id, f.sequence));
        }
      }
    }
  }

  // ---- The client reads one control message ----

  lemma AcceptedShrinks(s: System, id: FrameId, sequence: int)
    requires Inv(s) && !s.wire.Unread() && Admitted(s.relay, id)
    ensures ShrinksTo(s, AfterAccepted(s.t, id, sequence))
  {
  }

  lemma BackpressureShrinks(s: System, id: FrameId, sequence: int)
    requires Inv(s)
    ensures ShrinksTo(s, AfterBackpressure(s.cfg, s.t, id, sequence, true))
  {
  }

  lemma ReadyShrinks(s: System, r: SocketReady)
    requires Inv(s) && !s.wire.Unread() && BranchFor(s.cfg, s.t, r) != Rebase
    requires r.lastInboundFrameId.Some? ==> Admitted(s.relay, r.lastInboundFrameId.value)
    ensures ShrinksTo(s, AfterReady(s.cfg, s.t, r, s.h.nextFrame))
  {
    ReadyEffects(s.cfg, s.t, r, s.h.nextFrame);
    ReadySettles(s.cfg, s.t, r, s.h.nextFrame);
    SettlingShrinks(s, AfterReady(s.cfg, s.t, r, s.h.nextFrame), r, BranchFor(s.cfg, s.t, r));
  }

  lemma SettlingShrinks(s: System, t': Transport, r: SocketReady, branch: Branch)
    requires ClientOk(s.h, s.t) && !s.wire.Unread()
    requires r.lastInboundFrameId.Some? ==> Admitted(s.relay, r.lastInboundFrameId.value)
    requires t'.pending == s.t.pending || t'.pending.None?
    requires t'.accepted == s.t.accepted
             || (s.t.pending.Some? && t'.accepted == s.t.accepted - {s.t.pending.value.id})
    requires t'.settled == s.t.settled
             || (&& s.t.pending.Some? && t'.pending.None? && s.t.pending.value.id in s.t.accepted
                 && var call := s.t.accepted[s.t.pending.value.id];
                 && t'.settled == s.t.settled[call := if branch == Settle then Acknowledged
                                                      else if branch == DropFailed then DeliveryFailed
                                                      else DirectedRetired]
                 && (branch == Settle ==> Some(s.t.pending.value.id) == r.lastInboundFrameId))
    ensures ShrinksTo(s, t')
  {
  }

  // What reading a readiness that rebases tells: the frame was not admitted and never will be.
  lemma RebaseIsSafe(s: System, r: SocketReady)
    requires Inv(s) && s.wire.down != [] && s.wire.down[0] == Ready(r) && BranchFor(s.cfg, s.t, r) == Rebase
    ensures s.t.pending.value !in s.relay.admitted
    ensures forall i :: 0 <= i < |s.wire.up| ==>
              s.wire.up[i] == s.t.pending.value && Blocked(s.wire.up, s.relay.last, i)
  {
  }

  // After the rebase, exactly the frames of other calls keep their standing.
  lemma RebaseRelay(h: History, r: Relay, p: Frame, f: Frame)
    requires HistoryOk(h) && RelayOk(h, r) && Known(h, p) && Newest(h, p) && p !in r.admitted && f.id == h.nextFrame
    ensures RelayOk(Registered(h, f, h.owner[p.id]), r) && f !in r.admitted
  {
    var h' := Registered(h, f, h.owner[p.id]);
    forall i | 0 <= i < |r.admitted|
      ensures Known(h', r.admitted[i]) && Newest(h', r.admitted[i]) && r.admitted[i] != f
    {
      assert r.admitted[i] in r.admitted;
      RegisteredKeeps(h, f, h.owner[p.id], r.admitted[i]);
    }
  }

  lemma RebaseFlight(s: System, p: Frame, f: Frame)
    requires HistoryOk(s.h) && FlightOk(s.h, s.wire, s.relay.last) && !s.wire.Unread()
    requires UnreadOk(Some(p), s.wire, s.relay) && Known(s.h, p) && f.id == s.h.nextFrame && f !in s.relay.admitted
    requires forall i :: 0 <= i < |s.wire.up| ==> s.wire.up[i] == p && Blocked(s.wire.up, s.relay.last, i)
    ensures FlightOk(Registered(s.h, f, s.h.owner[p.id]), s.wire, s.relay.last)
    ensures PendingOk(Some(f), s.wire.up, s.relay) && UnreadOk(Some(f), s.wire, s.relay)
  {
    RegisteredKeeps(s.h, f, s.h.owner[p.id], p);
  }

  ghost predicate MovesFuture(s: System, t': Transport) {
    && s.t.pending.Some? && t'.pending.Some? && t'.pending.value.id == s.h.nextFrame && t'.settled == s.t.settled
    && var id := s.t.pending.value.id;
    t'.accepted == if id in s.t.accepted then (s.t.accepted - {id})[s.h.nextFrame := s.t.accepted[id]] else s.t.accepted
  }

  lemma RebaseClient(s: System, t': Transport)
    requires HistoryOk(s.h) && ClientOk(s.h, s.t) && MovesFuture(s, t')
    ensures ClientOk(Registered(s.h, t'.pending.value, s.h.owner[s.t.pending.value.id]), t')
  {
    assert s.t.pending.value.id in s.h.frames && s.h.nextFrame !in s.h.frames;
  }

  lemma RebaseOutcomes(s: System, t': Transport)
    requires HistoryOk(s.h) && ClientOk(s.h, s.t) && OutcomesOk(s.h, s.relay, s.t) && MovesFuture(s, t')
    ensures OutcomesOk(Registered(s.h, t'.pending.value, s.h.owner[s.t.pending.value.id]), s.relay, t')
  {
  }

  lemma RebasedInv(s: System, r: SocketReady)
    requires Inv(s) && s.wire.down != [] && s.wire.down[0] == Ready(r) && BranchFor(s.cfg, s.t, r) == Rebase
    ensures var rest := s.(wire := s.wire.(down := s.wire.down[1..]));
      Inv(Reconciled(rest, AfterReady(s.cfg, s.t, r, s.h.nextFrame), Rebasing))
  {
    RebaseIsSafe(s, r);
    HeadReadInv(s);
    ReadyEffects(s.cfg, s.t, r, s.h.nextFrame);
    RebasedRestInv(s.(wire := s.wire.(down := s.wire.down[1..])), r, AfterReady(s.cfg, s.t, r, s.h.nextFrame));
  }

  lemma RebasedRestInv(s: System, r: SocketReady, t': Transport)
    requires Inv(s) && !s.wire.Unread() && s.t.pending.Some?
    requires s.t.pending.value !in s.relay.admitted
    requires forall i :: 0 <= i < |s.wire.up| ==>
               s.wire.up[i] == s.t.pending.value && Blocked(s.wire.up, s.relay.last, i)
    requires t'.pending == Some(Rebased(s.cfg, s.t.pending.value, r, s.h.nextFrame)) && MovesFuture(s, t')
    ensures Inv(Reconciled(s, t', Rebasing))
  {
    var p, f := s.t.pending.value, t'.pending.value;
    RegisteredHistory(s.h, f, s.h.owner[p.id]);
    RebaseRelay(s.h, s.relay, p, f);
    RebaseFlight(s, p, f);
    RebaseClient(s, t');
    RebaseOutcomes(s, t');
  }

  lemma ReadReadyInv(s: System, r: SocketReady)
    requires Inv(s) && s.wire.open && s.wire.down != [] && s.wire.down[0] == Ready(r)
    ensures Inv(Received(s))
  {
    if BranchFor(s.cfg, s.t, r) == Rebase {
      RebasedInv(s, r);
    } else {
      var rest := s.(wire := s.wire.(down := s.wire.down[1..]));
      HeadReadInv(s);
      ReadyShrinks(rest, r);
      ControlledInv(rest, Reading(s, s.wire.down[0]).0);
    }
  }

  lemma ReceivedInv(s: System)
    requires Inv(s)
    ensures Inv(Received(s))
  {
    if s.wire.open && s.wire.down != [] {
      var c := s.wire.down[0];
      if c.Ready? {
        ReadReadyInv(s, c.ready);
      } else {
        var rest := s.(wire := s.wire.(down := s.wire.down[1..]));
        HeadReadInv(s);
        if c.Accepted? {
          AcceptedShrinks(rest, c.id, c.sequence);
        } else {
          BackpressureShrinks(rest, c.id, c.sequence);
        }
        ControlledInv(rest, Reading(s, c).0);
      }
    }
  }

  lemma ControlledInv(s: System, t': Transport)
    requires Inv(s) && ShrinksTo(s, t')
    ensures Inv(Reconciled(s, t', Handled)) && Inv(Reconciled(s, t', Raised))
  {
    ShrunkInv(s, t');
    LostInv(s.(t := t'));
  }

  lemma ApplyInv(s: System, step: Step)
    requires Inv(s)
    ensures Inv(Apply(s, step))
  {
    match step
    case Begin(request) => BegunInv(s, request);
    case Write => WrittenInv(s);
    case Fail(call, preserve) =>
      FailedShrinks(s, call, preserve);
      ShrunkInv(s, AfterSendFailed(s.t, call, preserve));
    case End(call) =>
      if call in s.h.newest {
        EndedShrinks(s, call);
        ShrunkInv(s, AfterSendEnded(s.t, call));
      }
    case Deny =>
      DeniedShrinks(s);
      ShrunkInv(s, AfterDenied(s.t));
    case RelayTake(admit) => TakenInv(s, admit);
    case Receive => ReceivedInv(s);
    case Lose => LostInv(s);
    case Connect(ack, capabilities) => ConnectedInv(s, ack, capabilities);
    case Restart =>
      RestartShrinks(s);
      ControlledInv(s, AfterRestart(s.t));
  }

  lemma {:induction false} RunInv(s: System, steps: seq<Step>)
    requires Inv(s)
    ensures Inv(Run(s, steps))
    decreases |steps|
  {
    if steps != [] {
      ApplyInv(s, steps[0]);
      RunInv(Apply(s, steps[0]), steps[1..]);
    }
  }

  // ---- What every run guarantees ----

  // Nothing is forgotten: what a call was given, and whose a frame is, never changes.
  ghost predicate Grows(h: History, h': History) {
    && h.nextCall <= h'.nextCall
    && (forall id :: id in h.owner ==> id in h'.owner && h'.owner[id] == h.owner[id])
    && (forall c :: c in h.request ==> c in h'.request && h'.request[c] == h.request[c])
  }

  lemma ReconciledGrows(s: System, t': Transport, verdict: Verdict)
    requires HistoryOk(s.h) && (verdict == Rebasing && t'.pending.Some? ==> t'.pending.value.id == s.h.nextFrame)
    ensures Grows(s.h, Reconciled(s, t', verdict).h)
  {
    assert s.h.nextFrame !in s.h.owner;
  }

  lemma ReceivedGrows(s: System)
    requires HistoryOk(s.h)
    ensures Grows(s.h, Received(s).h)
  {
    if s.wire.open && s.wire.down != [] {
      var c := s.wire.down[0];
      if c.Ready? {
        ReadyEffects(s.cfg, s.t, c.ready, s.h.nextFrame);
      }
      var (t', verdict) := Reading(s, c);
      ReconciledGrows(s.(wire := s.wire.(down := s.wire.down[1..])), t', verdict);
    }
  }

  lemma BegunGrows(s: System, request: Request)
    requires HistoryOk(s.h)
    ensures Grows(s.h, Begun(s, request).h)
  {
    assert s.h.nextFrame !in s.h.owner && s.h.nextCall !in s.h.request;
    hide FrameFor, AfterSendBegun;
  }

  lemma ApplyGrows(s: System, step: Step)
    requires HistoryOk(s.h)
    ensures Grows(s.h, Apply(s, step).h)
  {
    hide Begun, Received, HistoryOk, AfterSendFailed, AfterSendEnded, AfterDenied, AfterRestart;
    match step
    case Receive => ReceivedGrows(s);
    case Begin(request) => BegunGrows(s, request);
    case Write =>
    case RelayTake(_) =>
    case Fail(_, _) =>
    case End(_) =>
    case Deny =>
    case Lose =>
    case Connect(_, _) =>
    case Restart =>
  }

  lemma {:induction false} RunGrows(s: System, steps: seq<Step>)
    requires Inv(s)
    ensures Grows(s.h, Run(s, steps).h)
    decreases |steps|
  {
    if steps != [] {
      ApplyInv(s, steps[0]);
      ApplyGrows(s, steps[0]);
      RunGrows(Apply(s, steps[0]), steps[1..]);
    }
  }

  ghost predicate AdmittedFor(s: System, call: CallId) {
    exists i :: 0 <= i < |s.relay.admitted| && IsFor(s.h, s.relay.admitted[i], call)
  }

  // No two admitted frames belong to one call.
  ghost predicate AtMostOnce(s: System) {
    forall i, j :: 0 <= i < j < |s.relay.admitted| && s.relay.admitted[i].id in s.h.owner
      ==> !IsFor(s.h, s.relay.admitted[j], s.h.owner[s.relay.admitted[i].id])
  }

  /**
    From arbitrary stored counters and over every interleaving of sends, writes, failures, acks,
    backpressure, socket losses, restarts and readiness, the relay admits each call's payload at
    most once - the payload an earlier process left pending included.
  */
  lemma EveryRunAdmitsAtMostOnce(s0: System, steps: seq<Step>)
    requires Initial(s0)
    ensures AtMostOnce(Run(s0, steps))
  {
    InitialInv(s0);
    RunInv(s0, steps);
  }

  // A send in the middle of a run: what the history says about it at the end.
  lemma SendRun(s0: System, before: seq<Step>, request: Request, after: seq<Step>) returns (s: System)
    requires Initial(s0) && Run(s0, before).t.pending.None?
    ensures s == Run(Apply(Run(s0, before), Begin(request)), after) && Inv(s)
    ensures var call := Run(s0, before).h.nextCall; 1 <= call && call in s.h.request && s.h.request[call] == request
  {
    InitialInv(s0);
    RunInv(s0, before);
    var s1 := Run(s0, before);
    ApplyInv(s1, Begin(request));
    var s2 := Apply(s1, Begin(request));
    assert s1.h.nextCall in s2.h.request && s2.h.request[s1.h.nextCall] == request;
    RunInv(s2, after);
    RunGrows(s2, after);
    s := Run(s2, after);
  }

  /**
    The same, read off one send: whatever happened before and whatever follows, at most one admitted
    frame belongs to it, and that frame carries its payload to its recipient.
  */
  lemma OneSend(s0: System, before: seq<Step>, request: Request, after: seq<Step>, i: nat, j: nat)
    requires Initial(s0) && Run(s0, before).t.pending.None?
    ensures var call := Run(s0, before).h.nextCall;
      var s := Run(Apply(Run(s0, before), Begin(request)), after);
      var log := s.relay.admitted;
      i < |log| && j < |log| && IsFor(s.h, log[i], call) && IsFor(s.h, log[j], call)
      ==> i == j && Carries(log[i], request)
  {
    var s := SendRun(s0, before, request, after);
    if i < |s.relay.admitted| {
      assert Known(s.h, s.relay.admitted[i]);
    }
  }

  /**
    A future that resolved - by an acknowledgement or by readiness naming its frame exactly, before
    or after a rebase moved it to another frame - belongs to an admitted payload.
  */
  lemma ResolvedMeansAdmitted(s0: System, before: seq<Step>, request: Request, after: seq<Step>)
    requires Initial(s0) && Run(s0, before).t.pending.None?
    ensures var call := Run(s0, before).h.nextCall;
      var s := Run(Apply(Run(s0, before), Begin(request)), after);
      call in s.t.settled && s.t.settled[call] == Acknowledged ==> AdmittedFor(s, call)
  {
    var s := SendRun(s0, before, request, after);
    var call := Run(s0, before).h.nextCall;
    if call in s.t.settled && s.t.settled[call] == Acknowledged {
      var id := s.h.newest[call];
      assert Admitted(s.relay, id) && id in s.h.owner && s.h.owner[id] == call;
      var i :| 0 <= i < |s.relay.admitted| && s.relay.admitted[i].id == id;
      assert IsFor(s.h, s.relay.admitted[i], call);
    }
  }

  // ---- What a future failed by readiness means ----

  // No frame of the call was admitted, and none in flight or pending ever can be.
  ghost predicate Doomed(s: System, call: CallId) {
    && call < s.h.nextCall
    && (s.t.pending.Some? ==> !IsFor(s.h, s.t.pending.value, call))
    && (forall i :: 0 <= i < |s.relay.admitted| ==> !IsFor(s.h, s.relay.admitted[i], call))
    && (forall i :: 0 <= i < |s.wire.up| && IsFor(s.h, s.wire.up[i], call) ==> Blocked(s.wire.up, s.relay.last, i))
  }

  lemma DoomedTaken(s: System, admit: bool, call: CallId)
    requires Doomed(s, call)
    ensures Doomed(Taken(s, admit), call)
  {
    if s.wire.up != [] {
      BlockedPop(s.wire.up, s.relay.last);
      assert forall i :: 0 <= i < |s.wire.up| - 1 ==> s.wire.up[1..][i] == s.wire.up[i + 1];
    }
  }

  lemma DoomedElsewhere(s: System, s': System, call: CallId)
    requires Inv(s) && Doomed(s, call) && s'.relay == s.relay && Grows(s.h, s'.h)
    requires s'.t.pending.Some? ==> !IsFor(s'.h, s'.t.pending.value, call)
    requires s'.wire.up == s.wire.up || s'.wire.up == []
    ensures Doomed(s', call)
  {
    assert forall i :: 0 <= i < |s.relay.admitted| ==> Known(s.h, s.relay.admitted[i]);
    assert forall i :: 0 <= i < |s.wire.up| ==> Known(s.h, s.wire.up[i]);
  }

  lemma DoomedWritten(s: System, call: CallId)
    requires Doomed(s, call)
    ensures Doomed(s.(wire := Written(s.wire, s.t.pending)), call)
  {
    var w := Written(s.wire, s.t.pending);
    forall i | 0 <= i < |w.up| && IsFor(s.h, w.up[i], call) ensures Blocked(w.up, s.relay.last, i) {
      assert Blocked(s.wire.up, s.relay.last, i);
    }
  }

  // The only new pending frames are a new call's, and the rebased frame of the call already pending.
  lemma ReadPendingStaysOther(s: System, call: CallId)
    requires HistoryOk(s.h) && ClientOk(s.h, s.t)
    requires s.t.pending.Some? ==> !IsFor(s.h, s.t.pending.value, call)
    ensures var s' := Received(s);
      (s'.t.pending.Some? ==> !IsFor(s'.h, s'.t.pending.value, call)) && s'.relay == s.relay && s'.wire.up == s.wire.up
  {
    if s.wire.open && s.wire.down != [] {
      var c := s.wire.down[0];
      if c.Ready? {
        ReadyEffects(s.cfg, s.t, c.ready, s.h.nextFrame);
      }
      var (t', verdict) := Reading(s, c);
      ReconciledStaysOther(s.(wire := s.wire.(down := s.wire.down[1..])), t', verdict, call);
    }
  }

  lemma ReconciledStaysOther(s: System, t': Transport, verdict: Verdict, call: CallId)
    requires ClientOk(s.h, s.t)
    requires s.t.pending.Some? ==> !IsFor(s.h, s.t.pending.value, call)
    requires t'.pending.None? || t'.pending == s.t.pending
             || (verdict == Rebasing && s.t.pending.Some? && t'.pending.value.id == s.h.nextFrame)
    ensures var s' := Reconciled(s, t', verdict);
      (s'.t.pending.Some? ==> !IsFor(s'.h, s'.t.pending.value, call)) && s'.relay == s.relay && s'.wire.up == s.wire.up
  {
  }

  lemma DoomedReceived(s: System, call: CallId)
    requires Inv(s) && Doomed(s, call)
    ensures Doomed(Received(s), call)
  {
    ReceivedGrows(s);
    ReadPendingStaysOther(s, call);
    DoomedElsewhere(s, Received(s), call);
  }

  lemma DoomedApply(s: System, step: Step, call: CallId)
    requires Inv(s) && Doomed(s, call)
    ensures Doomed(Apply(s, step), call)
  {
    match step
    case RelayTake(admit) => DoomedTaken(s, admit, call);
    case Write => DoomedWritten(s, call);
    case Receive => DoomedReceived(s, call);
    case Begin(_) =>
      ApplyGrows(s, step);
      DoomedElsewhere(s, Apply(s, step), call);
    case Fail(_, _) =>
    case End(_) =>
    case Deny =>
    case Lose =>
    case Connect(_, _) =>
    case Restart =>
  }

  lemma {:induction false} DoomedForever(s: System, steps: seq<Step>, call: CallId)
    requires Inv(s) && Doomed(s, call)
    ensures !AdmittedFor(Run(s, steps), call)
    decreases |steps|
  {
    if steps != [] {
      ApplyInv(s, steps[0]);
      DoomedApply(s, steps[0], call);
      DoomedForever(Apply(s, steps[0]), steps[1..], call);
    }
  }

  // The client is about to read a readiness that drops or retires its pending frame.
  ghost predicate AboutToDrop(s: System) {
    && s.wire.open && s.wire.Unread() && s.t.pending.Some?
    && BranchFor(s.cfg, s.t, s.wire.down[0].ready) in {DropFailed, RetireDirected}
  }

  // The dropped frame was already admitted, or is in flight on this very socket and next in line.
  ghost predicate StillReachesRelay(s: System)
    requires s.t.pending.Some?
  {
    var p := s.t.pending.value;
    p in s.relay.admitted || (p in s.wire.up && p.sequence == s.relay.last + 1)
  }

  ghost predicate SomeContinuationAdmits(s: System, call: CallId) {
    exists more: seq<Step> :: AdmittedFor(Run(s, more), call)
  }

  lemma DropTouchesOnlyTheClient(s: System)
    requires AboutToDrop(s)
    ensures var s' := Apply(s, Receive);
      s'.relay == s.relay && s'.h == s.h && s'.wire.up == s.wire.up && s'.t.pending.None?
  {
  }

  lemma DropDooms(s: System)
    requires Inv(s) && AboutToDrop(s) && !StillReachesRelay(s)
    ensures Doomed(Apply(s, Receive), s.h.owner[s.t.pending.value.id])
  {
    var p := s.t.pending.value;
    DropTouchesOnlyTheClient(s);
    forall i | 0 <= i < |s.relay.admitted| ensures !IsFor(s.h, s.relay.admitted[i], s.h.owner[p.id]) {
      assert Known(s.h, s.relay.admitted[i]) && Newest(s.h, s.relay.admitted[i]);
      assert s.relay.admitted[i] in s.relay.admitted;
    }
    forall i | 0 <= i < |s.wire.up| ensures Blocked(s.wire.up, s.relay.last, i) {
      assert forall j :: 0 <= j <= i ==> s.wire.up[j] == p && s.wire.up[j] in s.wire.up;
    }
  }

  lemma RunOne(s: System, step: Step, rest: seq<Step>)
    ensures Run(s, [step] + rest) == Run(Apply(s, step), rest)
  {
    assert ([step] + rest)[1..] == rest;
  }

  lemma NextInLineIsAdmitted(s: System, call: CallId)
    requires s.wire.up != [] && s.wire.up[0].sequence == s.relay.last + 1 && IsFor(s.h, s.wire.up[0], call)
    ensures SomeContinuationAdmits(s, call)
  {
    var s' := Apply(s, RelayTake(true));
    assert s'.relay.admitted[|s.relay.admitted|] == s.wire.up[0] && s'.h == s.h;
    RunOne(s, RelayTake(true), []);
    assert AdmittedFor(Run(s, [RelayTake(true)] + []), call);
  }

  lemma DropLeavesInFlight(s: System)
    requires Inv(s) && AboutToDrop(s) && StillReachesRelay(s)
    ensures SomeContinuationAdmits(Apply(s, Receive), s.h.owner[s.t.pending.value.id])
  {
    var p := s.t.pending.value;
    var s' := Apply(s, Receive);
    DropTouchesOnlyTheClient(s);
    if p in s.relay.admitted {
      var i :| 0 <= i < |s.relay.admitted| && s.relay.admitted[i] == p;
      assert IsFor(s'.h, s'.relay.admitted[i], s.h.owner[p.id]);
      assert Run(s', []) == s';
    } else {
      assert s.wire.up[0] == p;
      NextInLineIsAdmitted(s', s.h.owner[p.id]);
    }
  }

  /**
    A future failed by the failed-frame or directed-retire branch tells the truth - no continuation
    ever admits its payload - if and only if the frame was neither admitted nor in flight, next in
    line, on the socket whose readiness is being read.
  */
  lemma DropIsFinalIffNotInFlight(s0: System, steps: seq<Step>, call: CallId)
    requires Initial(s0) && AboutToDrop(Run(s0, steps))
    requires IsFor(Run(s0, steps).h, Run(s0, steps).t.pending.value, call)
    ensures var s := Run(s0, steps);
      SomeContinuationAdmits(Apply(s, Receive), call) <==> StillReachesRelay(s)
  {
    hide Inv, Initial, Run, Apply, SomeContinuationAdmits, StillReachesRelay, BranchFor;
    InitialInv(s0);
    RunInv(s0, steps);
    var s := Run(s0, steps);
    if StillReachesRelay(s) {
      DropLeavesInFlight(s);
    } else {
      NeverAdmittedAfterDrop(s);
    }
    assert s.h.owner[s.t.pending.value.id] == call;
  }

  lemma NeverAdmittedAfterDrop(s: System)
    requires Inv(s) && AboutToDrop(s) && !StillReachesRelay(s)
    ensures !SomeContinuationAdmits(Apply(s, Receive), s.h.owner[s.t.pending.value.id])
  {
    ApplyInv(s, Receive);
    DropDooms(s);
    forall more: seq<Step> ensures !AdmittedFor(Run(Apply(s, Receive), more), s.h.owner[s.t.pending.value.id]) {
      DoomedForever(Apply(s, Receive), more, s.h.owner[s.t.pending.value.id]);
    }
  }

  // What the client knows when it reads the readiness: its own state, what it was asked to send, what it
  // has written to this socket, and the readiness itself - not what the relay has read.
  ghost predicate SameView(s: System, s': System) {
    && s.cfg == s'.cfg && s.t == s'.t && s.h == s'.h
    && s.wire.open == s'.wire.open && s.wire.wrote == s'.wire.wrote
    && s.wire.Unread() && s'.wire.Unread() && s.wire.down[0] == s'.wire.down[0]
  }

  // In some run that looks the same to the client, what the drop reports as failed is admitted after all.
  ghost predicate MayStillBeAdmitted(s: System, call: CallId) {
    exists s0: System, steps: seq<Step> ::
      Initial(s0) && SameView(s, Run(s0, steps)) && SomeContinuationAdmits(Apply(Run(s0, steps), Receive), call)
  }

  // The frame was written to this socket and is the one the readiness asks for.
  predicate WrittenAndNext(s: System)
    requires s.wire.Unread() && s.t.pending.Some?
  {
    s.t.pending.value.id in s.wire.wrote && s.t.pending.value.sequence == s.wire.down[0].ready.lastInboundSequence + 1
  }

  lemma ReachingIsWrittenAndNext(s: System)
    requires Inv(s) && AboutToDrop(s) && StillReachesRelay(s)
    ensures WrittenAndNext(s)
  {
  }

  lemma RunThen(s: System, steps: seq<Step>, step: Step)
    ensures Run(s, steps + [step]) == Apply(Run(s, steps), step)
    decreases |steps|
  {
    if steps == [] {
      assert [] + [step] == [step] && [step][1..] == [];
    } else {
      RunThen(Apply(s, steps[0]), steps[1..], step);
      assert (steps + [step])[1..] == steps[1..] + [step];
    }
  }

  // Written once more, the frame is in flight whatever became of the first copy.
  lemma WrittenAgainReaches(s: System)
    requires Inv(s) && AboutToDrop(s) && WrittenAndNext(s)
    ensures var s' := Apply(s, Write); SameView(s, s') && AboutToDrop(s') && StillReachesRelay(s')
  {
    var p := s.t.pending.value;
    var s' := Apply(s, Write);
    assert s.wire.wrote + {p.id} == s.wire.wrote;
    assert s'.wire.up[|s.wire.up|] == p;
  }

  // The same view decides the same branch over the same frame.
  lemma ViewDecides(s: System, s': System)
    requires SameView(s, s') && AboutToDrop(s)
    ensures s.t.pending.Some? && s'.t.pending == s.t.pending && AboutToDrop(s') && s'.h == s.h && (WrittenAndNext(s') <==> WrittenAndNext(s))
  {
    hide BranchFor;
  }

  lemma OtherDropIsFinal(s: System, s1: System, other: seq<Step>, call: CallId)
    requires Initial(s1) && SameView(s, Run(s1, other)) && AboutToDrop(s) && IsFor(s.h, s.t.pending.value, call) && !WrittenAndNext(s)
    ensures !SomeContinuationAdmits(Apply(Run(s1, other), Receive), call)
  {
    hide *;
    var s' := Run(s1, other);
    InitialInv(s1);
    RunInv(s1, other);
    ViewDecides(s, s');
    if StillReachesRelay(s') {
      ReachingIsWrittenAndNext(s');
    }
    DropIsFinalIffNotInFlight(s1, other, call);
  }

  lemma WrittenMayBeAdmitted(s0: System, steps: seq<Step>, call: CallId)
    requires Initial(s0) && AboutToDrop(Run(s0, steps)) && WrittenAndNext(Run(s0, steps))
    requires IsFor(Run(s0, steps).h, Run(s0, steps).t.pending.value, call)
    ensures MayStillBeAdmitted(Run(s0, steps), call)
  {
    hide Inv, Initial, AboutToDrop, StillReachesRelay, Run, Apply, WrittenAndNext, SomeContinuationAdmits, SameView, IsFor;
    var s := Run(s0, steps);
    InitialInv(s0);
    RunInv(s0, steps);
    WrittenAgainReaches(s);
    RunThen(s0, steps, Write);
    ViewDecides(s, Run(s0, steps + [Write]));
    DropIsFinalIffNotInFlight(s0, steps + [Write], call);
  }

  /**
    What the client itself can check. A drop it reads is final in every run it cannot tell from this one
    if and only if it has not written the frame to this socket, or the frame is not the one the readiness
    asks for. Waiting for readiness before the first write is therefore enough.
  */
  lemma DropIsFinalForTheClientIff(s0: System, steps: seq<Step>, call: CallId)
    requires Initial(s0) && AboutToDrop(Run(s0, steps))
    requires IsFor(Run(s0, steps).h, Run(s0, steps).t.pending.value, call)
    ensures !MayStillBeAdmitted(Run(s0, steps), call) <==> !WrittenAndNext(Run(s0, steps))
  {
    hide Inv, Initial, BranchFor, StillReachesRelay, Run, Apply, WrittenAndNext, SomeContinuationAdmits, SameView, IsFor;
    var s := Run(s0, steps);
    if WrittenAndNext(s) {
      WrittenMayBeAdmitted(s0, steps, call);
    } else {
      forall s1: System, other: seq<Step> | Initial(s1) && SameView(s, Run(s1, other))
        ensures !SomeContinuationAdmits(Apply(Run(s1, other), Receive), call)
      {
        OtherDropIsFinal(s, s1, other, call);
      }
    }
  }

  /** So in the run at hand a frame that was not written to this socket, or is not the next one, is never admitted. */
  lemma UnwrittenDropIsFinal(s0: System, steps: seq<Step>, call: CallId)
    requires Initial(s0) && AboutToDrop(Run(s0, steps))
    requires IsFor(Run(s0, steps).h, Run(s0, steps).t.pending.value, call)
    requires !WrittenAndNext(Run(s0, steps))
    ensures !SomeContinuationAdmits(Apply(Run(s0, steps), Receive), call)
  {
    hide Initial, Run, Apply, SomeContinuationAdmits, WrittenAndNext, BranchFor;
    OtherDropIsFinal(Run(s0, steps), s0, steps, call);
  }

  // The race below, state by state: the frame is stored, written, marked failed...
  lemma RaceBegins(s0: System, request: Request) returns (s: seq<System>)
    requires Initial(s0) && s0.t.pending.None? && s0.t.outbound == s0.relay.last == 0 && s0.relay.lastId.None?
    requires s0.t.backpressured.None? && !s0.t.denied && s0.t.peer == {} && request.target.None? && !request.deviceTool
    ensures |s| == 5 && s[0] == s0
    ensures s[1] == Apply(s[0], Connect(0, {})) && s[2] == Apply(s[1], Begin(request))
    ensures s[3] == Apply(s[2], Write) && s[4] == Apply(s[3], Fail(1, false))
    ensures AboutToDrop(s[4]) && s[4].t.accepted == map[s[4].t.pending.value.id := 1] && s[4].t.settled == map[]
    ensures s[4].wire.up == [s[4].t.pending.value] && s[4].wire.up[0].sequence == s[4].relay.last + 1
    ensures s[4].relay.lastId.None?
    ensures IsFor(s[4].h, s[4].wire.up[0], 1) && BranchFor(s[4].cfg, s[4].t, s[4].wire.down[0].ready) == DropFailed
  {
    var s1 := Apply(s0, Connect(0, {}));
    var s2 := Apply(s1, Begin(request));
    var p := s2.t.pending.value;
    var s3 := Apply(s2, Write);
    var s4 := Apply(s3, Fail(1, false));
    assert p.sequence == 1 && s4.t.failed == Some(p.id) && s4.t.accepted == map[p.id := 1];
    assert s4.wire.up == [p] && IsFor(s4.h, p, 1);
    s := [s0, s1, s2, s3, s4];
  }

  // ... dropped by the readiness, and admitted by the relay.
  lemma RaceEnds(s: System)
    requires AboutToDrop(s) && s.t.accepted == map[s.t.pending.value.id := 1] && s.t.settled == map[]
    requires s.wire.up == [s.t.pending.value] && s.wire.up[0].sequence == s.relay.last + 1
    requires Some(s.t.pending.value.id) != s.relay.lastId
    requires IsFor(s.h, s.wire.up[0], 1) && BranchFor(s.cfg, s.t, s.wire.down[0].ready) == DropFailed
    ensures var s' := Apply(Apply(s, Receive), RelayTake(true));
      1 in s'.t.settled && s'.t.settled[1] == DeliveryFailed && AdmittedFor(s', 1)
  {
    DropTouchesOnlyTheClient(s);
    var s' := Apply(Apply(s, Receive), RelayTake(true));
    assert s'.relay.admitted[|s.relay.admitted|] == s.wire.up[0];
    assert IsFor(s'.h, s'.relay.admitted[|s.relay.admitted|], 1);
  }

  /**
    The case the code does not exclude: a send that passed its connection check before a reconnect
    writes to the new socket ahead of its readiness, is cancelled, is told its delivery failed when
    readiness drops the frame - and the relay, which had the frame in flight, then admits it.
  */
  lemma FailedSendCanStillBeAdmitted()
    ensures exists s0: System, steps: seq<Step> ::
              && Initial(s0)
              && var s := Run(s0, steps);
              1 in s.t.settled && s.t.settled[1] == DeliveryFailed && AdmittedFor(s, 1)
  {
    var t := Transport(0, None, None, 0, map[], map[], None, {}, false);
    var h := History(map[], map[], map[], map[], 0, 1, 0);
    var s0 := System(Config("host", 1, {}), t, Wire(false, [], [], {}), Relay(0, None, [], 0, None), h);
    var request := Request("hello", None, false, false);
    var s := RaceBegins(s0, request);
    RaceEnds(s[4]);
    var s5 := Apply(s[4], Receive);
    RunSix(s0, Connect(0, {}), Begin(request), Write, Fail(1, false), Receive, RelayTake(true));
  }

  lemma RunSix(s: System, a: Step, b: Step, c: Step, d: Step, e: Step, f: Step)
    ensures Run(s, [a] + ([b] + ([c] + ([d] + ([e] + ([f] + [])))))) ==
            Apply(Apply(Apply(Apply(Apply(Apply(s, a), b), c), d), e), f)
  {
    RunOne(s, a, [b] + ([c] + ([d] + ([e] + ([f] + [])))));
    RunOne(Apply(s, a), b, [c] + ([d] + ([e] + ([f] + []))));
    var s2 := Apply(Apply(s, a), b);
    RunOne(s2, c, [d] + ([e] + ([f] + [])));
    RunOne(Apply(s2, c), d, [e] + ([f] + []));
    RunOne(Apply(Apply(s2, c), d), e, [f] + []);
    RunOne(Apply(Apply(Apply(s2, c), d), e), f, []);
  }

  // ---- A backpressured frame is not dropped ----

  // The pending frame, if it is this call's, cannot be marked failed again, and the call was not failed by readiness.
  ghost predicate Spared(s: System, call: CallId) {
    && call < s.h.nextCall && (s.t.failed.Some? ==> s.t.failed.value < s.h.nextFrame)
    && (s.t.pending.Some? && IsFor(s.h, s.t.pending.value, call) ==>
          var p := s.t.pending.value;
          s.t.failed != Some(p.id) && (s.t.backpressured == Some(p.id) || p.id !in s.t.accepted))
    && !(call in s.t.settled && s.t.settled[call] == DeliveryFailed)
  }

  lemma SparedClient(s: System, t': Transport, call: CallId)
    requires Inv(s) && Spared(s, call) && t'.pending == s.t.pending
    requires t'.failed == s.t.failed || (t'.pending.Some? && t'.failed == Some(t'.pending.value.id) && !IsFor(s.h, t'.pending.value, call))
    requires t'.backpressured == s.t.backpressured || forall id :: id !in t'.accepted
    requires forall id :: id in t'.accepted ==> id in s.t.accepted
    requires forall c :: c in t'.settled && t'.settled[c] == DeliveryFailed ==> c in s.t.settled && s.t.settled[c] == DeliveryFailed
    ensures Spared(s.(t := t'), call)
  {
  }

  lemma SparedReady(s: System, call: CallId)
    requires Inv(s) && Spared(s, call) && s.wire.open && s.wire.Unread()
    ensures Spared(Received(s), call)
  {
    var r := s.wire.down[0].ready;
    ReadyEffects(s.cfg, s.t, r, s.h.nextFrame);
    ReadySettles(s.cfg, s.t, r, s.h.nextFrame);
    ReadySpares(s.cfg, s.t, r, s.h.nextFrame);
    ReceivedKeepsOwners(s);
    hide RelayOk, FlightOk, PendingOk, UnreadOk, RepliesOk, AfterReady, BranchFor;
  }

  // A frame not marked failed is not dropped, and its marks follow it.
  lemma ReadySpares(cfg: Config, t: Transport, r: SocketReady, id: FrameId)
    ensures var t', branch := AfterReady(cfg, t, r, id), BranchFor(cfg, t, r);
      && (t'.failed == t.failed || t'.failed.None?)
      && (branch == DropFailed ==> t.pending.Some? && t.failed == Some(t.pending.value.id))
      && (branch == Rebase && t.backpressured == Some(t.pending.value.id) ==> t'.backpressured == Some(id))
      && (t'.pending == t.pending && t.pending.Some? ==> t'.backpressured == t.backpressured && t'.accepted == t.accepted)
  {
  }

  lemma ReceivedKeepsOwners(s: System)
    requires Inv(s) && s.wire.open && s.wire.Unread()
    ensures var s', t' := Received(s), AfterReady(s.cfg, s.t, s.wire.down[0].ready, s.h.nextFrame);
      && s'.t == t' && s'.h.nextCall == s.h.nextCall && s.h.nextFrame <= s'.h.nextFrame
      && (forall id :: id in s.h.owner ==> id in s'.h.owner && s'.h.owner[id] == s.h.owner[id])
      && (BranchFor(s.cfg, s.t, s.wire.down[0].ready) == Rebase ==>
            s'.h.nextFrame == s.h.nextFrame + 1 && s.h.nextFrame in s'.h.owner && s'.h.owner[s.h.nextFrame] == s.h.owner[s.t.pending.value.id])
  {
    hide RelayOk, FlightOk, PendingOk, UnreadOk, RepliesOk, OutcomesOk;
    ReadyEffects(s.cfg, s.t, s.wire.down[0].ready, s.h.nextFrame);
    hide AfterReady, BranchFor;
  }

  lemma SparedReceived(s: System, call: CallId)
    requires Inv(s) && Spared(s, call)
    ensures Spared(Received(s), call)
  {
    if s.wire.open && s.wire.down != [] {
      if s.wire.Unread() {
        SparedReady(s, call);
      } else {
        var (t', verdict) := Reading(s, s.wire.down[0]);
        ControlSpares(s, s.wire.down[0], call);
        hide Inv, Reading, Spared;
        ControlledSpares(s, t', verdict, call);
      }
    }
  }

  lemma ControlSpares(s: System, c: Control, call: CallId)
    requires Inv(s) && Spared(s, call) && !c.Ready?
    ensures var (t', verdict) := Reading(s, c); Spared(s.(t := t'), call) && verdict != Rebasing
  {
  }

  lemma ControlledSpares(s: System, t': Transport, verdict: Verdict, call: CallId)
    requires Spared(s.(t := t'), call) && verdict != Rebasing
    ensures Spared(Reconciled(s.(wire := s.wire.(down := if s.wire.down == [] then [] else s.wire.down[1..])), t', verdict), call)
  {
  }

  lemma SparedBegun(s: System, request: Request, call: CallId)
    requires Inv(s) && Spared(s, call)
    ensures Spared(Begun(s, request), call)
  {
    hide RelayOk, FlightOk, PendingOk, UnreadOk, RepliesOk, OutcomesOk;
  }

  lemma SparedApply(s: System, step: Step, call: CallId)
    requires Inv(s) && Spared(s, call)
    ensures Spared(Apply(s, step), call)
  {
    hide Spared, Inv, Begun, Received, Taken, Connected;
    match step
    case Begin(request) => SparedBegun(s, request, call);
    case Receive => SparedReceived(s, call);
    case Fail(c, preserve) => SparedFailed(s, c, preserve, call);
    case End(c) => SparedClient(s, AfterSendEnded(s.t, c), call);
    case Deny => SparedClient(s, AfterDenied(s.t), call);
    case Restart =>
      SparedClient(s, AfterRestart(s.t), call);
      SparedElsewhere(s.(t := AfterRestart(s.t)), Lost(s.wire), s.relay, call);
    case Write => SparedElsewhere(s, Written(s.wire, s.t.pending), s.relay, call);
    case Lose => SparedElsewhere(s, Lost(s.wire), s.relay, call);
    case Connect(_, _) => ConnectedSpares(s, step.ack, step.capabilities, call);
    case RelayTake(admit) => TakenSpares(s, admit, call);
  }

  // A send can only mark a frame that waits for it and is not backpressured.
  lemma SparedFailed(s: System, c: CallId, preserve: bool, call: CallId)
    requires Inv(s) && Spared(s, call)
    ensures Spared(s.(t := AfterSendFailed(s.t, c, preserve)), call)
  {
    hide RelayOk, FlightOk, PendingOk, UnreadOk, RepliesOk, OutcomesOk;
  }

  lemma SparedElsewhere(s: System, w: Wire, r: Relay, call: CallId)
    ensures Spared(s.(wire := w, relay := r), call) <==> Spared(s, call)
  {
  }

  lemma ConnectedSpares(s: System, ack: nat, capabilities: set<Capability>, call: CallId)
    requires Spared(s, call)
    ensures Spared(Connected(s, ack, capabilities), call)
  {
  }

  lemma TakenSpares(s: System, admit: bool, call: CallId)
    requires Spared(s, call)
    ensures Spared(Taken(s, admit), call)
  {
    SparedElsewhere(s, Taken(s, admit).wire, Taken(s, admit).relay, call);
  }

  lemma {:induction false} SparedForever(s: System, steps: seq<Step>, call: CallId)
    requires Inv(s) && Spared(s, call)
    ensures Spared(Run(s, steps), call)
    decreases |steps|
  {
    hide Spared, Inv, Apply;
    if steps != [] {
      ApplyInv(s, steps[0]);
      SparedApply(s, steps[0], call);
      SparedForever(Apply(s, steps[0]), steps[1..], call);
    }
  }

  /**
    The relay asked for this frame again: once the client has read backpressure for its pending frame, the
    call it belongs to is never told that readiness dropped it as failed - over every continuation,
    whatever its timeouts, rebases, other sends and restarts.
  */
  lemma BackpressuredIsNeverFailed(s: System, steps: seq<Step>)
    requires Inv(s) && (s.t.failed.Some? ==> s.t.failed.value < s.h.nextFrame)
    requires s.wire.open && s.t.pending.Some? && OwnedBy(s.cfg, s.t.pending.value)
    requires s.wire.down != [] && s.wire.down[0] == Backpressure(s.t.pending.value.id, s.t.pending.value.sequence)
    ensures var call := s.h.owner[s.t.pending.value.id];
      var s' := Run(Apply(s, Receive), steps);
      !(call in s'.t.settled && s'.t.settled[call] == DeliveryFailed)
  {
    var call := s.h.owner[s.t.pending.value.id];
    BackpressureSpares(s, call);
    ApplyInv(s, Receive);
    hide Inv, Apply;
    SparedForever(Apply(s, Receive), steps, call);
  }

  lemma BackpressureSpares(s: System, call: CallId)
    requires Inv(s) && (s.t.failed.Some? ==> s.t.failed.value < s.h.nextFrame)
    requires s.wire.open && s.t.pending.Some? && OwnedBy(s.cfg, s.t.pending.value) && IsFor(s.h, s.t.pending.value, call)
    requires s.wire.down != [] && s.wire.down[0] == Backpressure(s.t.pending.value.id, s.t.pending.value.sequence)
    ensures Spared(Apply(s, Receive), call)
  {
  }

  // ---- What gets through ----

  // The relay's last sequence is zero exactly while it has admitted nothing.
  predicate RelayStands(r: Relay) { 0 <= r.last && (r.last == 0 ==> r.lastId.None?) }

  predicate Quiet(w: Wire) { w.open && w.up == [] && w.down == [] }

  // Over a quiet socket: the pending frame is written, admitted and acknowledged.
  function RoundTrip(): seq<Step> { [Write] + ([RelayTake(true)] + ([Receive] + [])) }

  lemma RoundTripAdmits(s: System)
    requires Quiet(s.wire) && RelayStands(s.relay) && s.t.pending.Some? && s.t.pending.value.sequence == s.relay.last + 1
    ensures var (p, s') := (s.t.pending.value, Run(s, RoundTrip()));
      && s'.relay.admitted == s.relay.admitted + [p] && s'.relay.last == p.sequence && s'.relay.lastId == Some(p.id)
      && s'.t == AfterAccepted(s.t, p.id, p.sequence) && Quiet(s'.wire) && s'.h == s.h && s'.cfg == s.cfg
  {
    var p := s.t.pending.value;
    var s1 := Apply(s, Write);
    var s2 := Apply(s1, RelayTake(true));
    RunOne(s, Write, [RelayTake(true)] + ([Receive] + []));
    RunOne(s1, RelayTake(true), [Receive] + []);
    RunOne(s2, Receive, []);
    assert s1.wire.up == [p] && [p][1..] == [];
    assert s2.wire.down == [Accepted(p.id, p.sequence)] && [Accepted(p.id, p.sequence)][1..] == [];
    hide AfterAccepted;
  }

  lemma NothingToSend(s: System)
    requires Quiet(s.wire) && s.t.pending.None?
    ensures Run(s, RoundTrip()) == s
  {
    RunOne(s, Write, [RelayTake(true)] + ([Receive] + []));
    RunOne(s, RelayTake(true), [Receive] + []);
    RunOne(s, Receive, []);
  }

  /**
    A send over a quiet connection in step with the relay gets through: its payload is admitted, once, as the
    next frame, to its recipient, and its caller is told so.
  */
  lemma SendGetsThrough(s: System, request: Request)
    requires Quiet(s.wire) && RelayStands(s.relay) && s.t.pending.None? && s.t.outbound == s.relay.last && s.h.nextCall !in s.t.settled
    ensures var s' := Run(s, [Begin(request)] + RoundTrip());
      && |s'.relay.admitted| == |s.relay.admitted| + 1 && s.relay.admitted <= s'.relay.admitted
      && var f := s'.relay.admitted[|s.relay.admitted|];
      && Open(f.ciphertext) == request.payload && f.target == request.target && f.sequence == s.relay.last + 1
      && s'.t.pending.None? && s'.t.outbound == s'.relay.last
      && s.h.nextCall in s'.t.settled && s'.t.settled[s.h.nextCall] == Acknowledged
  {
    var s1 := Apply(s, Begin(request));
    RunOne(s, Begin(request), RoundTrip());
    FrameMeetsRequest(s.cfg, s.t, request, s.h.nextFrame, s.h.nextCall);
    BegunStands(s, request);
    RoundTripAdmits(s1);
    AcknowledgedResolves(s1.t, s1.t.pending.value.id, s1.t.pending.value.sequence);
    hide Run, RoundTrip, Apply, AfterAccepted, AfterSendBegun;
  }

  lemma BegunStands(s: System, request: Request)
    requires s.t.pending.None?
    ensures var s1 := Apply(s, Begin(request));
      && s1.t == AfterSendBegun(s.cfg, s.t, request, s.h.nextFrame, s.h.nextCall) && s1.wire == s.wire && s1.relay == s.relay
  {
    hide Registered, Opened, AfterSendBegun, FrameFor;
  }

  const EVERYTHING: set<Capability> := {DirectedFrames, StateBackedPresentation}

  // The socket breaks, a new one is opened, and its readiness is read.
  function Reconnecting(ack: nat): seq<Step> { [Lose] + ([Connect(ack, EVERYTHING)] + ([Receive] + [])) }

  function ReadyFrom(s: System, ack: nat): SocketReady {
    SocketReady(s.cfg.deviceId, s.cfg.epoch, s.relay.last, s.relay.lastId, ack, EVERYTHING)
  }

  lemma ReconnectReads(s: System, ack: nat)
    requires !BranchFor(s.cfg, s.t, ReadyFrom(s, ack)).Refused()
    ensures var s' := Run(s, Reconnecting(ack));
      && s'.t == AfterReady(s.cfg, s.t, ReadyFrom(s, ack), s.h.nextFrame) && Quiet(s'.wire) && s'.relay == s.relay && s'.cfg == s.cfg
  {
    var s1 := Apply(s, Lose);
    var s2 := Apply(s1, Connect(ack, EVERYTHING));
    RunOne(s, Lose, [Connect(ack, EVERYTHING)] + ([Receive] + []));
    RunOne(s1, Connect(ack, EVERYTHING), [Receive] + []);
    RunOne(s2, Receive, []);
    assert s2.wire.down == [Ready(ReadyFrom(s, ack))] && [Ready(ReadyFrom(s, ack))][1..] == [];
    hide AfterReady, BranchFor;
  }

  lemma {:induction false} RunJoin(s: System, first: seq<Step>, rest: seq<Step>)
    ensures Run(s, first + rest) == Run(Run(s, first), rest)
    decreases |first|
  {
    hide Apply;
    if first == [] {
      assert first + rest == rest;
    } else {
      assert (first + rest)[1..] == first[1..] + rest;
      RunJoin(Apply(s, first[0]), first[1..], rest);
    }
  }

  /**
    A broken connection loses nothing. From any state whatsoever - frames of the old socket in flight, counters
    apart, a send half done - one reconnection to a relay that takes everything, and one round trip, settle this
    device's pending frame: the relay had it already, or admits its payload as the next frame, and its caller is
    told so; only a frame marked failed, which the relay does not have, is dropped instead.
  */
  lemma ReconnectionDelivers(s: System, ack: nat)
    requires RelayStands(s.relay) && s.t.pending.Some? && OwnedBy(s.cfg, s.t.pending.value)
    ensures var (p, s') := (s.t.pending.value, Run(s, Reconnecting(ack) + RoundTrip()));
      var had := p.sequence == s.relay.last && Some(p.id) == s.relay.lastId;
      var dropped := !had && s.t.failed == Some(p.id);
      && s'.t.pending.None?
      && (had || dropped ==> s'.relay == s.relay)
      && (!had && !dropped ==>
            && |s'.relay.admitted| == |s.relay.admitted| + 1 && s.relay.admitted <= s'.relay.admitted
            && var f := s'.relay.admitted[|s.relay.admitted|];
            Open(f.ciphertext) == Open(p.ciphertext) && f.target == p.target && f.presentation == p.presentation)
      && (p.id in s.t.accepted && s.t.accepted[p.id] !in s.t.settled ==>
            s.t.accepted[p.id] in s'.t.settled
            && s'.t.settled[s.t.accepted[p.id]] == if dropped then DeliveryFailed else Acknowledged)
  {
    var p, r := s.t.pending.value, ReadyFrom(s, ack);
    RunJoin(s, Reconnecting(ack), RoundTrip());
    ReadinessAcceptedIff(s.cfg, s.t, r, s.h.nextFrame);
    ReconnectReads(s, ack);
    var s1 := Run(s, Reconnecting(ack));
    PendingFate(s.cfg, s.t, r, s.h.nextFrame);
    if s1.t.pending.None? {
      NothingToSend(s1);
    } else {
      ReconciliationRestoresOrder(s.cfg, s.t, r, s.h.nextFrame);
      ReadinessIsAdopted(s.cfg, s.t, r, s.h.nextFrame);
      RoundTripAdmits(s1);
      AcknowledgedResolves(s1.t, s1.t.pending.value.id, s1.t.pending.value.sequence);
    }
    hide Run, RoundTrip, Reconnecting, AfterReady, AfterAccepted, BranchFor, PopAndSettle;
  }
}
