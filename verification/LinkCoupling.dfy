/**
  Where the pending frame stands with the relay. Over the runs of `LinkProtocol` the pending frame of a
  client whose counter has not run ahead is absent, or next in line, or exactly the relay's last
  admission, or a frame the relay will never admit. This module proves from which stored states that
  holds over every interleaving, in both directions.
*/
module LinkCoupling {
  import opened LinkClient
  import opened LinkProtocol
  import opened Numbers
  import opened Wrappers

  ghost predicate NeverAdmitted(s: System, p: Frame) { forall more: seq<Step> :: p !in Run(s, more).relay.admitted }

  predicate IsLast(p: Frame, r: Relay) { p.sequence == r.last && Some(p.id) == r.lastId }

  // The pending frame is absent, or next in line, or exactly the relay's last admission, or dead.
  ghost predicate Coupled(s: System) {
    s.t.pending.Some? ==>
      var p := s.t.pending.value;
      p.sequence == s.relay.last + 1 || IsLast(p, s.relay) || NeverAdmitted(s, p)
  }

  // What the relay and the durable keys always satisfy: no admission yet means no last id, and a
  // failure mark names a frame drawn before.
  predicate Sound(s: System) {
    && 0 <= s.relay.last && (s.relay.last == 0 ==> s.relay.lastId.None?)
    && (s.t.failed.Some? ==> s.t.failed.value < s.h.nextFrame)
  }

  /**
    The stored states whose runs all stay coupled. The counter is not ahead of the relay; or the pending
    frame is another owner's, so it blocks the client; or the relay has yet to admit the pending frame,
    which is first dropped by readiness, resetting the counter, or is undirected, cannot be dropped, and
    brings the relay level with a counter one ahead.
  */
  predicate StaysCoupled(s: System) {
    || s.t.outbound <= s.relay.last
    || (s.t.pending.Some?
        && var p := s.t.pending.value;
        var oneAhead := s.t.outbound == s.relay.last + 1;
        || !OwnedBy(s.cfg, p)
        || (!IsLast(p, s.relay)
            && if s.t.failed == Some(p.id) then oneAhead || p.sequence != s.relay.last + 1 else oneAhead && p.target.None?))
  }

  // ---- What keeps every run coupled ----

  // No acknowledgement on its way is ahead of the relay.
  predicate RepliesBehind(down: seq<Control>, last: int) {
    forall i :: 0 <= i < |down| && down[i].Accepted? ==> down[i].sequence <= last
  }

  // A pending frame more than one ahead is in flight in front of everything else: alone.
  predicate InFront(pending: Option<Frame>, up: seq<Frame>, last: int) {
    pending.Some? ==> pending.value.sequence <= last + 1 || forall i :: 0 <= i < |up| ==> up[i] == pending.value
  }

  // Nothing but the pending frame is in flight, and the readiness of an open socket is still unread.
  predicate Untouched(pending: Option<Frame>, w: Wire) {
    && pending.Some? && (forall i :: 0 <= i < |w.up| ==> w.up[i] == pending.value)
    && (w.open ==> w.Unread()) && (!w.open ==> w.down == [])
  }

  predicate Behind(t: Transport, r: Relay) { t.outbound <= r.last }

  predicate Foreign(cfg: Config, t: Transport, w: Wire) { Untouched(t.pending, w) && !OwnedBy(cfg, t.pending.value) }

  // About to be dropped, unless the relay admits the frame first and is level then.
  predicate Marked(t: Transport, w: Wire, r: Relay) {
    && Untouched(t.pending, w) && t.failed == Some(t.pending.value.id)
    && !IsLast(t.pending.value, r)
    && (t.pending.value.sequence == r.last + 1 ==> t.outbound <= r.last + 1)
  }

  // Kept or rebased by every readiness until the relay admits it and is level.
  predicate Undirected(t: Transport, r: Relay, next: FrameId) {
    && t.pending.Some? && t.pending.value.target.None? && t.pending.value.id !in t.accepted
    && t.failed != Some(t.pending.value.id) && (t.failed.Some? ==> t.failed.value < next)
    && !IsLast(t.pending.value, r) && t.outbound <= r.last + 1
  }

  predicate Phase(s: System) {
    Behind(s.t, s.relay) || Foreign(s.cfg, s.t, s.wire) || Marked(s.t, s.wire, s.relay) || Undirected(s.t, s.relay, s.h.nextFrame)
  }

  predicate Steady(s: System) {
    RepliesBehind(s.wire.down, s.relay.last) && InFront(s.t.pending, s.wire.up, s.relay.last) && Phase(s)
  }

  // What the steps that read nothing from the relay do to the client.
  // The relay stays where it is, or admits the frame next in line and is one further.
  lemma RelayTakes(s: System, admit: bool)
    requires s.wire.up != []
    ensures var s', f := Taken(s, admit), s.wire.up[0];
      && s'.t == s.t && s'.cfg == s.cfg && s'.h == s.h && s'.wire.up == s.wire.up[1..] && s'.wire.open == s.wire.open
      && (s'.relay == s.relay || (f.sequence == s.relay.last + 1 && s'.relay == Admitting(s.relay, f)))
      && (s'.wire.down == s.wire.down
          || (s.wire.open && |s'.wire.down| == |s.wire.down| + 1 && s'.wire.down[..|s.wire.down|] == s.wire.down
              && var c := s'.wire.down[|s.wire.down|]; !c.Ready? && (c.Accepted? ==> c.sequence <= s'.relay.last)))
  {
  }

  lemma TakenSteady(s: System, admit: bool)
    requires Steady(s)
    ensures Steady(Taken(s, admit))
  {
    if s.wire.up != [] {
      RelayTakes(s, admit);
      var s' := Taken(s, admit);
      hide Taken;
      assert forall i :: 0 <= i < |s'.wire.up| ==> s'.wire.up[i] == s.wire.up[i + 1];
      assert RepliesBehind(s'.wire.down, s'.relay.last) by {
        assert forall i :: 0 <= i < |s.wire.down| ==> s'.wire.down[i] == s'.wire.down[..|s.wire.down|][i];
      }
      TakenPhase(s, s');
    }
  }

  lemma TakenPhase(s: System, s': System)
    requires Phase(s) && s.wire.up != []
    requires s'.t == s.t && s'.cfg == s.cfg && s'.h == s.h && s'.wire.up == s.wire.up[1..] && s'.wire.open == s.wire.open
    requires s'.relay == s.relay || (s.wire.up[0].sequence == s.relay.last + 1 && s'.relay == Admitting(s.relay, s.wire.up[0]))
    requires s'.wire.down == s.wire.down
             || (s.wire.open && |s'.wire.down| == |s.wire.down| + 1 && s'.wire.down[..|s.wire.down|] == s.wire.down)
    ensures Phase(s')
  {
    if s.wire.open && s.wire.down != [] {
      assert s'.wire.down[0] == s'.wire.down[..|s.wire.down|][0] || s'.wire.down == s.wire.down;
    }
  }

  lemma ConnectedSteady(s: System, ack: nat, capabilities: set<Capability>)
    requires Inv(s) && Steady(s)
    ensures Steady(Connected(s, ack, capabilities))
  {
  }

  lemma WrittenSteady(s: System)
    requires Inv(s) && Steady(s)
    ensures Steady(s.(wire := Written(s.wire, s.t.pending)))
  {
  }

  lemma BegunSteady(s: System, request: Request)
    requires Inv(s) && Steady(s)
    ensures Steady(Begun(s, request))
  {
  }

  // A client step that leaves the pending frame, the counter, its future and the failure mark of others alone.
  lemma ClientSteady(s: System, t': Transport)
    requires Steady(s) && t'.pending == s.t.pending && t'.outbound == s.t.outbound
    requires forall id :: id in t'.accepted ==> id in s.t.accepted
    requires t'.failed == s.t.failed || (t'.pending.Some? && t'.pending.value.id in s.t.accepted && t'.failed == Some(t'.pending.value.id))
    ensures Steady(s.(t := t'))
  {
  }

  lemma LostSteady(s: System)
    requires Steady(s)
    ensures Steady(s.(wire := Lost(s.wire)))
  {
  }

  // A readiness reports at most where the relay is, and is behind only if the pending frame was admitted.
  lemma ReadyReports(s: System)
    requires Inv(s) && s.wire.Unread()
    ensures var ready := s.wire.down[0].ready;
      && ready.lastInboundSequence <= s.relay.last && s.h.nextFrame !in s.t.accepted
      && ((ready.lastInboundSequence == s.relay.last && ready.lastInboundFrameId == s.relay.lastId)
          || (s.t.pending.Some? && IsLast(s.t.pending.value, s.relay)))
  {
  }

  // The pending frame was either kept or dropped, or rebased to the place the readiness asks for.
  lemma ReadSteady(s: System, r: SocketReady, id: FrameId)
    requires Phase(s) && r.lastInboundSequence <= s.relay.last && id == s.h.nextFrame && id !in s.t.accepted
    requires (r.lastInboundSequence == s.relay.last && r.lastInboundFrameId == s.relay.lastId)
             || (s.t.pending.Some? && IsLast(s.t.pending.value, s.relay))
    ensures var t', branch := AfterReady(s.cfg, s.t, r, id), BranchFor(s.cfg, s.t, r);
      && (branch.Refused() ==> t' == s.t.(peer := r.capabilities))
      && (!branch.Refused() ==> Behind(t', s.relay) || Undirected(t', s.relay, if branch == Rebase then id + 1 else id))
      && (t'.pending.Some? ==> t'.pending == s.t.pending || t'.pending.value.sequence == r.lastInboundSequence + 1)
  {
  }

  lemma ReceivedParts(s: System)
    requires s.wire.open && s.wire.down != []
    ensures var (t', verdict) := Reading(s, s.wire.down[0]);
      var s' := Received(s);
      && s'.t == t' && s'.cfg == s.cfg && s'.relay == s.relay && s.h.nextFrame <= s'.h.nextFrame
      && s'.wire == if verdict == Raised then Lost(s.wire) else s.wire.(down := s.wire.down[1..])
  {
    hide AfterReady, BranchFor, AfterAccepted, AfterBackpressure;
  }

  lemma ReadySteady(s: System)
    requires Inv(s) && Steady(s) && s.wire.open && s.wire.Unread()
    ensures Steady(Received(s))
  {
    ReadyReports(s);
    var r := s.wire.down[0].ready;
    ReadSteady(s, r, s.h.nextFrame);
    ReceivedParts(s);
    RebasedIsRegistered(s);
    var branch := BranchFor(s.cfg, s.t, r);
    var t' := AfterReady(s.cfg, s.t, r, s.h.nextFrame);
    hide Inv, AfterReady, BranchFor, Received, Phase, InFront;
    if branch.Refused() {
      RefusedSteady(s, Received(s));
    } else {
      hide RepliesBehind, Undirected;
      assert RepliesBehind(s.wire.down[1..], s.relay.last) by { RepliesRest(s.wire.down, s.relay.last); }
      assert InFront(t'.pending, s.wire.up, s.relay.last) by { FrontRest(s.t.pending, t'.pending, s.wire.up, s.relay.last); }
      AcceptedPhase(s, Received(s));
    }
  }

  lemma RepliesRest(down: seq<Control>, last: int)
    requires RepliesBehind(down, last) && down != []
    ensures RepliesBehind(down[1..], last)
  {
  }

  lemma FrontRest(pending: Option<Frame>, pending': Option<Frame>, up: seq<Frame>, last: int)
    requires InFront(pending, up, last)
    requires pending'.Some? ==> pending' == pending || pending'.value.sequence <= last + 1
    ensures InFront(pending', up, last)
  {
  }

  lemma AcceptedPhase(s: System, s': System)
    requires s'.relay == s.relay && (Behind(s'.t, s.relay) || Undirected(s'.t, s.relay, s'.h.nextFrame))
    ensures Phase(s')
  {
    hide Undirected, Foreign, Marked;
  }

  // A refused readiness costs the socket and changes nothing that is stored.
  lemma RefusedSteady(s: System, s': System)
    requires Steady(s) && s'.relay == s.relay && s'.cfg == s.cfg && s'.wire == Lost(s.wire) && s.h.nextFrame <= s'.h.nextFrame
    requires (s'.t.pending, s'.t.outbound, s'.t.failed, s'.t.accepted) == (s.t.pending, s.t.outbound, s.t.failed, s.t.accepted)
    ensures Steady(s')
  {
  }

  // A rebase draws a fresh identifier.
  lemma RebasedIsRegistered(s: System)
    requires Inv(s) && s.wire.open && s.wire.Unread()
    ensures BranchFor(s.cfg, s.t, s.wire.down[0].ready) == Rebase ==> Received(s).h.nextFrame == s.h.nextFrame + 1
  {
    hide FlightOk, PendingOk, RelayOk, RepliesOk, OutcomesOk, UnreadOk;
    ReadyEffects(s.cfg, s.t, s.wire.down[0].ready, s.h.nextFrame);
    hide AfterReady;
  }

  lemma ReceivedSteady(s: System)
    requires Inv(s) && Steady(s)
    ensures Steady(Received(s))
  {
    if s.wire.open && s.wire.down != [] {
      if s.wire.Unread() {
        ReadySteady(s);
      } else {
        ControlSteady(s);
      }
    }
  }

  // After a readiness: an acknowledgement brings the counter to where the relay has been.
  lemma ControlSteady(s: System)
    requires Inv(s) && Steady(s) && s.wire.open && s.wire.down != [] && !s.wire.Unread()
    ensures Steady(Received(s))
  {
    hide Inv;
    ReceivedParts(s);
  }

  lemma ApplySteady(s: System, step: Step)
    requires Inv(s) && Steady(s)
    ensures Steady(Apply(s, step))
  {
    hide Inv, Steady, Taken, Connected, Written, Begun, Received;
    match step
    case Begin(request) => BegunSteady(s, request);
    case Write => WrittenSteady(s);
    case Fail(call, preserve) => ClientSteady(s, AfterSendFailed(s.t, call, preserve));
    case End(call) => ClientSteady(s, AfterSendEnded(s.t, call));
    case Deny => ClientSteady(s, AfterDenied(s.t));
    case RelayTake(admit) => TakenSteady(s, admit);
    case Receive => ReceivedSteady(s);
    case Lose => LostSteady(s);
    case Connect(ack, capabilities) => ConnectedSteady(s, ack, capabilities);
    case Restart =>
      ClientSteady(s, AfterRestart(s.t));
      LostSteady(s.(t := AfterRestart(s.t)));
  }

  lemma {:induction false} RunSteady(s: System, steps: seq<Step>)
    requires Inv(s) && Steady(s)
    ensures Inv(Run(s, steps)) && Steady(Run(s, steps))
    decreases |steps|
  {
    hide Inv, Steady, Apply;
    if steps != [] {
      ApplyInv(s, steps[0]);
      ApplySteady(s, steps[0]);
      RunSteady(Apply(s, steps[0]), steps[1..]);
    }
  }

  // ---- Frames that are never admitted ----

  lemma {:induction false} BehindIsNeverAdmitted(s: System, steps: seq<Step>, p: Frame)
    requires p !in s.relay.admitted && p.sequence <= s.relay.last
    ensures p !in Run(s, steps).relay.admitted
    decreases |steps|
  {
    if steps != [] {
      RelayMoves(s, steps[0]);
      BehindIsNeverAdmitted(Apply(s, steps[0]), steps[1..], p);
    }
  }

  lemma RelayMoves(s: System, step: Step)
    ensures var r := Apply(s, step).relay;
      r == s.relay || (exists f: Frame :: f.sequence == s.relay.last + 1 && r == Admitting(s.relay, f))
  {
    if step.RelayTake? && Apply(s, step).relay != s.relay {
      assert Apply(s, step).relay == Admitting(s.relay, s.wire.up[0]);
    }
  }

  // A frame that was too far ahead when it was written: it is in flight in front of everything else, so
  // the relay rejects every copy of it before it moves, and it never becomes pending again.
  ghost predicate TooFarAhead(s: System, p: Frame) {
    && p.id < s.h.nextFrame && p !in s.relay.admitted
    && (forall i, j :: 0 <= i < j < |s.wire.up| && s.wire.up[j] == p ==> s.wire.up[i] == p)
    && (s.t.pending == Some(p) || p in s.wire.up ==> p.sequence > s.relay.last + 1)
    && (s.t.pending == Some(p) ==> forall i :: 0 <= i < |s.wire.up| ==> s.wire.up[i] == p)
  }

  lemma ReceivedPending(s: System)
    ensures var s' := Received(s);
      && s'.relay == s.relay && s'.wire.up == s.wire.up && s.h.nextFrame <= s'.h.nextFrame
      && (s'.t.pending.Some? ==> s'.t.pending == s.t.pending || s'.t.pending.value.id == s.h.nextFrame)
  {
    if s.wire.open && s.wire.down != [] {
      if s.wire.Unread() {
        ReadyEffects(s.cfg, s.t, s.wire.down[0].ready, s.h.nextFrame);
      }
      hide AfterReady, BranchFor;
      ReceivedParts(s);
    }
  }

  lemma TakenTooFar(s: System, admit: bool, p: Frame)
    requires TooFarAhead(s, p)
    ensures TooFarAhead(Taken(s, admit), p)
  {
    if s.wire.up != [] {
      RelayTakes(s, admit);
      hide Taken;
      assert forall i :: 0 <= i < |s.wire.up| - 1 ==> s.wire.up[1..][i] == s.wire.up[i + 1];
      if s.wire.up[0] != p {
        assert p !in s.wire.up;
      }
    }
  }

  lemma TooFarStays(s: System, step: Step, p: Frame)
    requires TooFarAhead(s, p)
    ensures TooFarAhead(Apply(s, step), p)
  {
    hide Taken, Received;
    match step
    case RelayTake(admit) => TakenTooFar(s, admit, p);
    case Receive => ReceivedPending(s);
    case Begin(_) =>
    case Write =>
    case Fail(_, _) =>
    case End(_) =>
    case Deny =>
    case Lose =>
    case Connect(_, _) =>
    case Restart =>
  }

  lemma {:induction false} TooFarIsNeverAdmitted(s: System, steps: seq<Step>, p: Frame)
    requires TooFarAhead(s, p)
    ensures p !in Run(s, steps).relay.admitted
    decreases |steps|
  {
    hide TooFarAhead, Apply;
    if steps == [] {
      assert p !in s.relay.admitted by { TooFarIsOut(s, p); }
    } else {
      TooFarStays(s, steps[0], p);
      TooFarIsNeverAdmitted(Apply(s, steps[0]), steps[1..], p);
    }
  }

  lemma TooFarIsOut(s: System, p: Frame)
    requires TooFarAhead(s, p)
    ensures p !in s.relay.admitted
  {
  }

  // An admitted pending frame is the last admission; a frame ahead of the relay is not admitted.
  lemma AdmittedIsLast(s: System)
    requires Inv(s) && s.t.pending.Some?
    ensures s.t.pending.value.id < s.h.nextFrame
    ensures s.t.pending.value in s.relay.admitted ==> IsLast(s.t.pending.value, s.relay)
  {
  }

  lemma SteadyIsCoupled(s: System)
    requires Inv(s) && Steady(s)
    ensures Coupled(s)
  {
    if s.t.pending.Some? && !IsLast(s.t.pending.value, s.relay) {
      var p := s.t.pending.value;
      AdmittedIsLast(s);
      hide Inv, Phase, RepliesBehind, Run;
      if p.sequence > s.relay.last + 1 {
        assert TooFarAhead(s, p);
        forall more: seq<Step> ensures p !in Run(s, more).relay.admitted {
          TooFarIsNeverAdmitted(s, more, p);
        }
      } else if p.sequence <= s.relay.last {
        forall more: seq<Step> ensures p !in Run(s, more).relay.admitted {
          BehindIsNeverAdmitted(s, more, p);
        }
      }
    }
  }

  lemma RunCoupled(s0: System, steps: seq<Step>)
    requires Initial(s0) && Steady(s0)
    ensures Coupled(Run(s0, steps))
  {
    InitialInv(s0);
    hide Initial, Inv, Steady, Run, Coupled;
    RunSteady(s0, steps);
    SteadyIsCoupled(Run(s0, steps));
  }

  /**
    From any stored pending frame, if the counter is not ahead of the relay, then over every interleaving
    the pending frame is absent, or next in line, or exactly the relay's last admission, or never admitted.
  */
  lemma CouplingHolds(s0: System, steps: seq<Step>)
    requires Initial(s0) && s0.t.outbound <= s0.relay.last
    ensures Coupled(Run(s0, steps))
  {
    hide Run, Coupled;
    RunCoupled(s0, steps);
  }

  lemma StoredIsSteady(s0: System)
    requires Initial(s0) && Sound(s0) && StaysCoupled(s0)
    ensures Steady(s0)
  {
  }

  // ---- What breaks the coupling ----

  ghost predicate Breaks(s: System) { exists steps: seq<Step> :: !Coupled(Run(s, steps)) }

  lemma BreaksOnce(s: System)
    requires Breaks(s)
    ensures !forall steps: seq<Step> :: Coupled(Run(s, steps))
  {
    hide Coupled;
    var steps: seq<Step> :| !Coupled(Run(s, steps));
  }

  lemma BreaksAfter(s: System, step: Step)
    requires Breaks(Apply(s, step))
    ensures Breaks(s)
  {
    hide Apply, Coupled;
    var steps: seq<Step> :| !Coupled(Run(Apply(s, step), steps));
    RunOne(s, step, steps);
    assert !Coupled(Run(s, [step] + steps));
  }

  const ALL: set<Capability> := {DirectedFrames, StateBackedPresentation}
  const UNDIRECTED: set<Capability> := {StateBackedPresentation}

  // No socket, and a client whose next sequence a relay could be made to ask for.
  ghost predicate Idling(s: System) {
    Inv(s) && Sound(s) && !s.wire.open && (s.relay.lastId.Some? ==> s.relay.lastId.value < s.h.nextFrame)
  }

  function ReadyNow(s: System, capabilities: set<Capability>): SocketReady {
    SocketReady(s.cfg.deviceId, s.cfg.epoch, s.relay.last, s.relay.lastId, 0, capabilities)
  }

  function AfterConnect(s: System, capabilities: set<Capability>): System { Apply(s, Connect(0, capabilities)) }

  // A new socket whose readiness is read and that is lost again: only the client and its identifiers change.
  function Reconnected(s: System): System { Apply(Apply(AfterConnect(s, ALL), Receive), Lose) }

  lemma ReconnectedParts(s: System)
    requires Idling(s)
    ensures var s' := Reconnected(s);
      var r := ReadyNow(s, ALL);
      && Inv(s') && !s'.wire.open && s'.relay == s.relay && s'.cfg == s.cfg && ReadyValid(s.cfg, r)
      && s'.t == AfterReady(s.cfg, s.t, r, s.h.nextFrame)
      && s'.h.nextFrame >= s.h.nextFrame + if BranchFor(s.cfg, s.t, r) == Rebase then 1 else 0
  {
    hide Inv, AfterReady, BranchFor;
    var s1 := AfterConnect(s, ALL);
    assert s1.wire == Wire(true, [], [Ready(ReadyNow(s, ALL))], {});
    var s2 := Apply(s1, Receive);
    ApplyInv(s, Connect(0, ALL));
    ApplyInv(s1, Receive);
    ApplyInv(s2, Lose);
    ReceivedParts(s1);
    RebasedIsRegistered(s1);
  }

  lemma ReconnectedBreaks(s: System)
    requires Breaks(Reconnected(s))
    ensures Breaks(s)
  {
    hide Apply, Breaks;
    BreaksAfter(Apply(AfterConnect(s, ALL), Receive), Lose);
    BreaksAfter(AfterConnect(s, ALL), Receive);
    BreaksAfter(s, Connect(0, ALL));
  }

  // What a readiness with every capability makes of a pending frame that is neither settled nor dropped.
  lemma BroughtNext(cfg: Config, t: Transport, r: SocketReady, id: FrameId)
    requires ReadyValid(cfg, r) && r.capabilities == ALL && t.pending.Some? && OwnedBy(cfg, t.pending.value)
    requires !(t.pending.value.sequence == r.lastInboundSequence && Some(t.pending.value.id) == r.lastInboundFrameId)
    requires t.failed != Some(t.pending.value.id) && (t.failed.Some? ==> t.failed.value < id) && t.outbound > r.lastInboundSequence
    ensures var t' := AfterReady(cfg, t, r, id);
      && t'.pending.Some? && OwnedBy(cfg, t'.pending.value) && t'.pending.value.target == t.pending.value.target
      && t'.pending.value.sequence == r.lastInboundSequence + 1
      && t'.failed == t.failed && t'.failed != Some(t'.pending.value.id) && t'.outbound == t.outbound
  {
  }

  // And of one the relay admitted last.
  lemma Settles(cfg: Config, t: Transport, r: SocketReady, id: FrameId)
    requires ReadyValid(cfg, r) && t.pending.Some? && OwnedBy(cfg, t.pending.value) && t.outbound > r.lastInboundSequence
    requires t.pending.value.sequence == r.lastInboundSequence && Some(t.pending.value.id) == r.lastInboundFrameId
    ensures var t' := AfterReady(cfg, t, r, id);
      && t'.pending.None? && t'.outbound == t.outbound && (t'.failed == t.failed || t'.failed.None?)
  {
  }

  // The relay admits the pending frame of a socket that is then lost.
  function Advanced(s: System): System { Apply(Apply(Apply(AfterConnect(s, ALL), Write), RelayTake(true)), Lose) }

  lemma AdvancedParts(s: System)
    requires Idling(s) && s.t.pending.Some? && s.t.pending.value.sequence == s.relay.last + 1
    ensures var s' := Advanced(s);
      Idling(s') && s'.t == s.t && s'.cfg == s.cfg && s'.h == s.h && s'.relay == Admitting(s.relay, s.t.pending.value)
  {
    AdmittedIsLast(s);
    AdvancedInv(s);
    AdvancedState(s);
    hide Inv, Advanced;
  }

  lemma AdvancedInv(s: System)
    requires Inv(s)
    ensures Inv(Advanced(s))
  {
    hide Inv, Apply;
    var s1 := AfterConnect(s, ALL);
    ApplyInv(s, Connect(0, ALL));
    ApplyInv(s1, Write);
    ApplyInv(Apply(s1, Write), RelayTake(true));
    ApplyInv(Apply(Apply(s1, Write), RelayTake(true)), Lose);
  }

  lemma AdvancedState(s: System)
    requires !s.wire.open && s.t.pending.Some? && s.t.pending.value.sequence == s.relay.last + 1
    ensures var s' := Advanced(s);
      !s'.wire.open && s'.t == s.t && s'.cfg == s.cfg && s'.h == s.h && s'.relay == Admitting(s.relay, s.t.pending.value)
  {
    var s1 := AfterConnect(s, ALL);
    assert s1.wire == Wire(true, [], [Ready(ReadyNow(s, ALL))], {});
    var s2 := Apply(s1, Write);
    assert s2.wire.up == [s.t.pending.value] && s2.wire.open;
  }

  lemma AdvancedBreaks(s: System)
    requires Breaks(Advanced(s))
    ensures Breaks(s)
  {
    hide Apply, Breaks;
    var s1 := AfterConnect(s, ALL);
    BreaksAfter(Apply(Apply(s1, Write), RelayTake(true)), Lose);
    BreaksAfter(Apply(s1, Write), RelayTake(true));
    BreaksAfter(s1, Write);
    BreaksAfter(s, Connect(0, ALL));
  }

  // A directed frame next in line is written and retired, and an undirected one sent after it.
  function RetiredAndSent(s: System, request: Request): System {
    Apply(Apply(Apply(AfterConnect(s, UNDIRECTED), Write), Receive), Begin(request))
  }

  lemma Retires(cfg: Config, t: Transport, r: SocketReady, id: FrameId)
    requires ReadyValid(cfg, r) && r.capabilities == UNDIRECTED && t.pending.Some? && OwnedBy(cfg, t.pending.value)
    requires t.pending.value.sequence == r.lastInboundSequence + 1 && t.pending.value.target.Some? && t.failed != Some(t.pending.value.id)
    ensures BranchFor(cfg, t, r) == RetireDirected
    ensures var t' := AfterReady(cfg, t, r, id); t'.pending.None? && t'.outbound == Max(t.outbound, r.lastInboundSequence)
  {
  }

  lemma RetiredAndSentParts(s: System, request: Request)
    requires Idling(s) && s.t.pending.Some? && OwnedBy(s.cfg, s.t.pending.value) && s.t.pending.value.target.Some?
    requires s.t.pending.value.sequence == s.t.outbound == s.relay.last + 1 && s.t.failed != Some(s.t.pending.value.id)
    ensures var s' := RetiredAndSent(s, request);
      && s'.wire.open && s'.wire.up == [s.t.pending.value] && s'.relay == s.relay
      && s'.t.pending.Some? && s'.t.pending.value.sequence == s.relay.last + 2
  {
    hide Inv, AfterReady, BranchFor;
    var p, r := s.t.pending.value, ReadyNow(s, UNDIRECTED);
    var s1 := AfterConnect(s, UNDIRECTED);
    assert s1.wire == Wire(true, [], [Ready(r)], {});
    var s2 := Apply(s1, Write);
    assert s2.wire == Wire(true, [p], [Ready(r)], {p.id});
    Retires(s.cfg, s.t, r, s.h.nextFrame);
    ReceivedParts(s2);
  }

  // The relay then admits both, one after the other.
  lemma BothAreAdmitted(s: System)
    requires s.wire.open && |s.wire.up| == 1 && s.wire.up[0].sequence == s.relay.last + 1
    requires s.t.pending.Some? && s.t.pending.value.sequence == s.relay.last + 2
    ensures !Coupled(s)
  {
    var q, p := s.wire.up[0], s.t.pending.value;
    var s1 := Apply(s, Write);
    assert s1.wire.up == [q, p];
    var s2 := Apply(s1, RelayTake(true));
    assert s2.wire.up == [p] && s2.relay == Admitting(s.relay, q);
    var s3 := Apply(s2, RelayTake(true));
    assert s3.relay.admitted == s.relay.admitted + [q] + [p] && s3.relay.admitted[|s.relay.admitted| + 1] == p;
    RunOne(s, Write, [RelayTake(true)] + ([RelayTake(true)] + []));
    RunOne(s1, RelayTake(true), [RelayTake(true)] + []);
    RunOne(s2, RelayTake(true), []);
  }

  lemma NextDirectedBreaks(s: System, request: Request)
    requires Idling(s) && s.t.pending.Some? && OwnedBy(s.cfg, s.t.pending.value) && s.t.pending.value.target.Some?
    requires s.t.pending.value.sequence == s.t.outbound == s.relay.last + 1 && s.t.failed != Some(s.t.pending.value.id)
    ensures Breaks(s)
  {
    RetiredAndSentParts(s, request);
    var s' := RetiredAndSent(s, request);
    BothAreAdmitted(s');
    assert Run(s', []) == s';
    hide Apply, Coupled, Run, Idling;
    assert !Coupled(Run(s', []));
    BreaksAfter(Apply(Apply(AfterConnect(s, UNDIRECTED), Write), Receive), Begin(request));
    BreaksAfter(Apply(AfterConnect(s, UNDIRECTED), Write), Receive);
    BreaksAfter(AfterConnect(s, UNDIRECTED), Write);
    BreaksAfter(s, Connect(0, UNDIRECTED));
  }

  // ---- Every other stored state breaks it ----

  ghost predicate Stuck(s: System) { Idling(s) && s.t.outbound > s.relay.last }

  lemma ReconnectedIdles(s: System)
    requires Idling(s)
    requires var t' := AfterReady(s.cfg, s.t, ReadyNow(s, ALL), s.h.nextFrame); t'.failed == s.t.failed || t'.failed.None?
    ensures Idling(Reconnected(s))
  {
    ReconnectedParts(s);
    hide Inv, AfterReady, BranchFor, Reconnected;
  }

  // The last admission settles, and nothing is pending any more.
  lemma SettledBreaks(s: System, request: Request)
    requires Stuck(s) && s.t.pending.Some? && OwnedBy(s.cfg, s.t.pending.value) && IsLast(s.t.pending.value, s.relay)
    ensures Breaks(s)
    decreases s.t.outbound - s.relay.last, 3
  {
    ReconnectedParts(s);
    Settles(s.cfg, s.t, ReadyNow(s, ALL), s.h.nextFrame);
    ReconnectedIdles(s);
    hide Inv, AfterReady, BranchFor, Reconnected, Breaks;
    IdleBreaks(Reconnected(s), request);
    ReconnectedBreaks(s);
  }

  // A frame next in line with the counter two ahead is admitted, and the counter still ahead.
  lemma NextInLineBreaks(s: System, request: Request)
    requires Stuck(s) && s.t.pending.Some? && OwnedBy(s.cfg, s.t.pending.value)
    requires s.t.pending.value.sequence == s.relay.last + 1 && s.t.outbound > s.relay.last + 1
    ensures Breaks(s)
    decreases s.t.outbound - s.relay.last, 0
  {
    AdvancedParts(s);
    hide Inv, Advanced, Breaks;
    SettledBreaks(Advanced(s), request);
    AdvancedBreaks(s);
  }

  lemma KeptBreaks(s: System, request: Request)
    requires Stuck(s) && s.t.pending.Some? && OwnedBy(s.cfg, s.t.pending.value) && !IsLast(s.t.pending.value, s.relay)
    requires s.t.failed != Some(s.t.pending.value.id) && (s.t.outbound == s.relay.last + 1 ==> s.t.pending.value.target.Some?)
    ensures Breaks(s)
    decreases s.t.outbound - s.relay.last, 1
  {
    ReconnectedParts(s);
    BroughtNext(s.cfg, s.t, ReadyNow(s, ALL), s.h.nextFrame);
    ReconnectedIdles(s);
    var s' := Reconnected(s);
    hide Inv, AfterReady, BranchFor, Reconnected, Breaks;
    if s.t.outbound == s.relay.last + 1 {
      NextDirectedBreaks(s', request);
    } else {
      NextInLineBreaks(s', request);
    }
    ReconnectedBreaks(s);
  }

  // With nothing pending the client sends a directed frame.
  lemma IdleBreaks(s: System, request: Request)
    requires Stuck(s) && s.t.pending.None?
    ensures Breaks(s)
    decreases s.t.outbound - s.relay.last, 2
  {
    var directed := Request(request.payload, Some(s.cfg.deviceId), false, false);
    var s' := Apply(s, Begin(directed));
    ApplyInv(s, Begin(directed));
    hide Inv, Breaks;
    KeptBreaks(s', request);
    BreaksAfter(s, Begin(directed));
  }

  lemma StoredIsStuck(s0: System)
    requires Initial(s0) && Sound(s0) && s0.t.outbound > s0.relay.last
    ensures Stuck(s0)
  {
    InitialInv(s0);
    hide Inv;
  }

  /** From any stored state that is not one of these, some run leaves a pending frame two ahead that the relay still admits. */
  lemma OtherwiseBreaks(s0: System, request: Request)
    requires Initial(s0) && Sound(s0) && !StaysCoupled(s0)
    ensures Breaks(s0)
  {
    StoredIsStuck(s0);
    hide Initial, Inv, Breaks;
    if s0.t.pending.None? {
      IdleBreaks(s0, request);
    } else if IsLast(s0.t.pending.value, s0.relay) {
      SettledBreaks(s0, request);
    } else if s0.t.failed == Some(s0.t.pending.value.id) {
      NextInLineBreaks(s0, request);
    } else {
      KeptBreaks(s0, request);
    }
  }

  /**
    The coupling, exactly: over every interleaving the pending frame is absent, or next in line, or
    exactly the relay's last admission, or never admitted, if and only if the stored keys are such that
    the counter is not ahead of the relay or can never take a sequence ahead of it.
  */
  lemma CouplingHoldsIff(s0: System)
    requires Initial(s0) && Sound(s0)
    ensures (forall steps: seq<Step> :: Coupled(Run(s0, steps))) <==> StaysCoupled(s0)
  {
    hide Initial, Sound, Coupled, Breaks;
    if StaysCoupled(s0) {
      StoredIsSteady(s0);
      forall steps: seq<Step> ensures Coupled(Run(s0, steps)) {
        RunCoupled(s0, steps);
      }
    } else {
      OtherwiseBreaks(s0, Request([], None, false, false));
      BreaksOnce(s0);
    }
  }

  lemma AheadByOne() returns (s0: System)
    ensures Initial(s0) && Sound(s0) && s0.t.outbound == s0.relay.last + 1 && s0.t.pending.None?
  {
    var t := Transport(1, None, None, 0, map[], map[], None, {}, false);
    var h := History(map[], map[], map[], map[], 0, 1, 0);
    s0 := System(Config([], 1, {}), t, Wire(false, [], [], {}), Relay(0, None, [], 0, None), h);
  }

  /** The smallest case: a counter of 1, nothing stored, and a relay at 0. */
  lemma CouplingNeedsTheCounter()
    ensures exists s0: System, steps: seq<Step> :: Initial(s0) && s0.t.outbound == s0.relay.last + 1 && !Coupled(Run(s0, steps))
  {
    var s0 := AheadByOne();
    CouplingHoldsIff(s0);
  }
}
