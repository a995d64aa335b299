/**
  The durable outbound half of one Loopdy Link client: one pending frame, its sequence
  counter, and the futures waiting for the relay. `Transport` is the client's state as a
  value, the `After...` functions say what each handler does to it, and the class
  `LoopdyLinkClient` updates its fields the way the handlers do and is proved against them.
*/
module LinkClient {
  import opened Numbers
  import opened Wrappers

  type DeviceId = string
  type Payload = string
  type FrameId = nat  // an identifier drawn from 18 random bytes; freshness is a caller's duty
  type CallId = nat   // one call of send_payload, and the future it waits on

  // AEAD sealing: the nonce makes ciphertexts differ, opening recovers the payload.
  datatype Ciphertext = Sealed(payload: Payload, nonce: nat)

  function Seal(payload: Payload, nonce: nat): Ciphertext { Sealed(payload, nonce) }

  function Open(ciphertext: Ciphertext): Payload { ciphertext.payload }

  datatype Capability = DirectedFrames | StateBackedPresentation

  datatype Config = Config(deviceId: DeviceId, epoch: int, capabilities: set<Capability>)

  datatype Frame = Frame(
    id: FrameId,
    senderDeviceId: DeviceId,
    senderEpoch: int,
    sequence: int,
    ack: int,
    ciphertext: Ciphertext,
    target: Option<DeviceId>,
    presentation: bool)

  // What a caller hands to send_payload.
  datatype Request = Request(
    payload: Payload,
    target: Option<DeviceId>,
    transient: bool,
    deviceTool: bool)

  datatype Outcome =
    | Acknowledged        // future.set_result
    | DeliveryFailed      // readiness dropped a frame already marked failed
    | DirectedRetired     // readiness retired a directed frame the relay cannot keep private
    | AuthorizationDenied
    | Cancelled

  datatype SocketReady = SocketReady(
    deviceId: DeviceId,
    epoch: int,
    lastInboundSequence: int,
    lastInboundFrameId: Option<FrameId>,
    lastAcknowledgedSequence: int,
    capabilities: set<Capability>)

  datatype SendError = NotAuthorized | TargetRequired | DirectedNotNegotiated | PriorPending

  datatype ControlError = InvalidAcknowledgement | AcknowledgementMismatch | PendingOwnerInvalid

  // How one socket.ready message is reconciled with the durable pending frame.
  datatype Branch =
    | Invalid | Idle | WrongOwner | Settle | RefusePresentation
    | DropFailed | RetireDirected | Keep | Rebase
  {
    // The message raised, so the socket that carried it is closed.
    predicate Refused() { Invalid? || WrongOwner? || RefusePresentation? }
  }

  datatype Transport = Transport(
    outbound: int,                    // durable: outbound_sequence
    pending: Option<Frame>,           // durable: pending_frame
    failed: Option<FrameId>,          // durable: failed_pending_frame_id
    lastReceived: int,                // durable: last_received_sequence
    accepted: map<FrameId, CallId>,   // _accepted
    settled: map<CallId, Outcome>,    // futures that are done
    backpressured: Option<FrameId>,
    peer: set<Capability>,
    denied: bool)

  // future.set_result / set_exception, skipped when the future is already done
  function Settling(settled: map<CallId, Outcome>, call: CallId, outcome: Outcome): map<CallId, Outcome> {
    if call in settled then settled else settled[call := outcome]
  }

  // self._accepted.pop(id, None), then settle the popped future
  function PopAndSettle(t: Transport, id: FrameId, outcome: Outcome): Transport {
    if id in t.accepted
    then t.(accepted := t.accepted - {id}, settled := Settling(t.settled, t.accepted[id], outcome))
    else t
  }

  function ForgetFailure(failed: Option<FrameId>, id: FrameId): Option<FrameId> {
    if failed == Some(id) then None else failed
  }

  predicate OwnedBy(cfg: Config, f: Frame) {
    f.senderDeviceId == cfg.deviceId && f.senderEpoch == cfg.epoch
  }

  function IsPresentation(cfg: Config, peer: set<Capability>, request: Request): bool {
    StateBackedPresentation in peer && StateBackedPresentation in cfg.capabilities && request.transient
  }

  // What a send checks before it waits for its turn, the connection and the prior pending frame. All
  // that may have changed by the time its frame is stored; only the pending frame is looked at again.
  function EntryError(t: Transport, request: Request): Option<SendError> {
    if t.denied then Some(NotAuthorized)
    else if request.deviceTool && request.target.None? then Some(TargetRequired)
    else if request.target.Some? && DirectedFrames !in t.peer then Some(DirectedNotNegotiated)
    else None
  }

  function FrameFor(cfg: Config, t: Transport, request: Request, id: FrameId): Frame {
    Frame(id, cfg.deviceId, cfg.epoch, t.outbound + 1, t.lastReceived, Seal(request.payload, id),
          request.target, IsPresentation(cfg, t.peer, request))
  }

  function AfterSendBegun(cfg: Config, t: Transport, request: Request, id: FrameId, call: CallId): Transport {
    if t.pending.Some? then t
    else t.(pending := Some(FrameFor(cfg, t, request, id)), accepted := t.accepted[id := call])
  }

  // The except branch of send_payload: only the frame this call still owns may be marked failed.
  predicate MarksFailed(t: Transport, call: CallId, preserve: bool) {
    && !preserve && !t.denied && t.pending.Some?
    && t.pending.value.id in t.accepted && t.accepted[t.pending.value.id] == call
    && t.backpressured != Some(t.pending.value.id)
  }

  function AfterSendFailed(t: Transport, call: CallId, preserve: bool): Transport {
    if MarksFailed(t, call, preserve) then t.(failed := Some(t.pending.value.id)) else t
  }

  // The finally branch of send_payload.
  function AfterSendEnded(t: Transport, call: CallId): Transport {
    t.(accepted := map id | id in t.accepted && t.accepted[id] != call :: t.accepted[id],
       settled := Settling(t.settled, call, Cancelled))
  }

  function AcceptedError(t: Transport, id: FrameId, sequence: int): Option<ControlError> {
    if sequence < 1 then Some(InvalidAcknowledgement)
    else if t.pending.None? then None
    else if t.pending.value.id != id || t.pending.value.sequence != sequence then Some(AcknowledgementMismatch)
    else None
  }

  function AfterAccepted(t: Transport, id: FrameId, sequence: int): Transport {
    if AcceptedError(t, id, sequence).Some? || t.pending.None? then t
    else PopAndSettle(t.(outbound := sequence, pending := None, backpressured := None,
                         failed := ForgetFailure(t.failed, id)), id, Acknowledged)
  }

  function BackpressureError(cfg: Config, t: Transport, id: FrameId, sequence: int): Option<ControlError> {
    if t.pending.None? || t.pending.value.id != id || t.pending.value.sequence != sequence then None
    else if !OwnedBy(cfg, t.pending.value) then Some(PendingOwnerInvalid)
    else None
  }

  function AfterBackpressure(cfg: Config, t: Transport, id: FrameId, sequence: int, open: bool): Transport {
    if t.pending.None? || t.pending.value.id != id || t.pending.value.sequence != sequence
       || !OwnedBy(cfg, t.pending.value) || !open
    then t
    else t.(backpressured := Some(id), failed := ForgetFailure(t.failed, id))
  }

  function AfterDenied(t: Transport): Transport {
    t.(denied := true,
       settled := map call | call in t.settled.Keys + t.accepted.Values
                  :: if call in t.settled then t.settled[call] else AuthorizationDenied)
  }

  // A new process over the same durable state.
  function AfterRestart(t: Transport): Transport {
    t.(accepted := map[], backpressured := None, peer := {}, denied := false)
  }

  predicate ReadyValid(cfg: Config, r: SocketReady) {
    && r.deviceId == cfg.deviceId && r.epoch == cfg.epoch
    && 0 <= r.lastInboundSequence && 0 <= r.lastAcknowledgedSequence
    && !(r.lastInboundSequence == 0 && r.lastInboundFrameId.Some?)
  }

  function BranchFor(cfg: Config, t: Transport, r: SocketReady): Branch {
    if !ReadyValid(cfg, r) then Invalid
    else if t.pending.None? then Idle
    else var p := t.pending.value;
      if !OwnedBy(cfg, p) then WrongOwner
      else if p.sequence == r.lastInboundSequence && Some(p.id) == r.lastInboundFrameId then Settle
      else if p.presentation && StateBackedPresentation !in r.capabilities then RefusePresentation
      else if t.failed == Some(p.id) then DropFailed
      else if p.target.Some? && DirectedFrames !in r.capabilities then RetireDirected
      else if p.sequence == r.lastInboundSequence + 1 then Keep
      else Rebase
  }

  function Rebased(cfg: Config, p: Frame, r: SocketReady, id: FrameId): Frame {
    Frame(id, cfg.deviceId, cfg.epoch, r.lastInboundSequence + 1, Max(p.ack, r.lastAcknowledgedSequence),
          Seal(Open(p.ciphertext), id), p.target, p.presentation)
  }

  // The two counters every accepted readiness merges with what the relay reports.
  function Merged(t: Transport, r: SocketReady): Transport {
    t.(peer := r.capabilities,
       outbound := Max(t.outbound, r.lastInboundSequence),
       lastReceived := Max(t.lastReceived, r.lastAcknowledgedSequence))
  }

  function AfterReady(cfg: Config, t: Transport, r: SocketReady, id: FrameId): Transport {
    var m := Merged(t, r);
    match BranchFor(cfg, t, r)
    case Invalid => t.(peer := r.capabilities)
    case WrongOwner => t.(peer := r.capabilities)
    case RefusePresentation => t.(peer := r.capabilities)
    case Idle => m.(backpressured := None)
    case Settle =>
      PopAndSettle(m.(backpressured := None, pending := None, failed := ForgetFailure(t.failed, t.pending.value.id)),
                   t.pending.value.id, Acknowledged)
    case DropFailed =>
      PopAndSettle(m.(outbound := r.lastInboundSequence, pending := None, failed := None),
                   t.pending.value.id, DeliveryFailed)
    case RetireDirected =>
      PopAndSettle(m.(backpressured := None, pending := None), t.pending.value.id, DirectedRetired)
    case Keep => m
    case Rebase =>
      var p := t.pending.value;
      m.(pending := Some(Rebased(cfg, p, r, id)),
         backpressured := if t.backpressured == Some(p.id) then Some(id) else t.backpressured,
         accepted := if p.id in t.accepted then (t.accepted - {p.id})[id := t.accepted[p.id]] else t.accepted)
  }

  /** One device's Link client; every handler runs to completion on the event loop. */
  class LoopdyLinkClient {
    const config: Config
    var outboundSequence: int
    var pendingFrame: Option<Frame>
    var failedPendingFrameId: Option<FrameId>
    var lastReceivedSequence: int
    var accepted: map<FrameId, CallId>
    var settled: map<CallId, Outcome>
    var backpressuredFrameId: Option<FrameId>
    var peerCapabilities: set<Capability>
    var authenticationFailed: bool

    ghost function Snapshot(): Transport
      reads this
    {
      Transport(outboundSequence, pendingFrame, failedPendingFrameId, lastReceivedSequence, accepted, settled,
                backpressuredFrameId, peerCapabilities, authenticationFailed)
    }

    constructor (config: Config, durable: Transport)
      ensures this.config == config
      ensures Snapshot() == AfterRestart(durable).(settled := map[])
    {
      this.config := config;
      outboundSequence, pendingFrame := durable.outbound, durable.pending;
      failedPendingFrameId, lastReceivedSequence := durable.failed, durable.lastReceived;
      accepted, settled, backpressuredFrameId, peerCapabilities := map[], map[], None, {};
      authenticationFailed := false;
    }

    method Settle(id: FrameId, outcome: Outcome)
      modifies this`accepted, this`settled
      ensures Snapshot() == PopAndSettle(old(Snapshot()), id, outcome)
    {
      if id in accepted {
        var call := accepted[id];
        accepted := accepted - {id};
        if call !in settled {
          settled := settled[call := outcome];
        }
      }
    }

    method EnterSend(request: Request) returns (error: Option<SendError>)
      ensures error == EntryError(Snapshot(), request)
    {
      if authenticationFailed {
        return Some(NotAuthorized);
      }
      if request.deviceTool && request.target.None? {
        return Some(TargetRequired);
      }
      if request.target.Some? && DirectedFrames !in peerCapabilities {
        return Some(DirectedNotNegotiated);
      }
      return None;
    }

    // After the waits, the last of which gives up if a frame stays pending too long.
    method BeginSend(request: Request, id: FrameId, call: CallId) returns (r: Result<Frame, SendError>)
      modifies this
      ensures Snapshot() == AfterSendBegun(config, old(Snapshot()), request, id, call)
      ensures r.Success? ==> pendingFrame == Some(r.value) && r.value.sequence == outboundSequence + 1
      ensures r == if old(pendingFrame).Some? then Failure(PriorPending)
                   else Success(FrameFor(config, old(Snapshot()), request, id))
    {
      if pendingFrame.Some? {
        return Failure(PriorPending);
      }
      var delivery := StateBackedPresentation in peerCapabilities
        && StateBackedPresentation in config.capabilities && request.transient;
      var frame := Frame(id, config.deviceId, config.epoch, outboundSequence + 1, lastReceivedSequence,
                         Seal(request.payload, id), request.target, delivery);
      pendingFrame := Some(frame);
      accepted := accepted[id := call];
      return Success(frame);
    }

    method FailSend(call: CallId, preservePendingOnFailure: bool) returns (reconnect: bool)
      modifies this`failedPendingFrameId
      ensures Snapshot() == AfterSendFailed(old(Snapshot()), call, preservePendingOnFailure)
      ensures reconnect == MarksFailed(old(Snapshot()), call, preservePendingOnFailure)
    {
      reconnect := false;
      if !preservePendingOnFailure && !authenticationFailed && pendingFrame.Some? {
        var frame := pendingFrame.value;
        if frame.id in accepted && accepted[frame.id] == call && Some(frame.id) != backpressuredFrameId {
          failedPendingFrameId := Some(frame.id);
          reconnect := true;
        }
      }
    }

    method EndSend(call: CallId)
      modifies this`accepted, this`settled
      ensures Snapshot() == AfterSendEnded(old(Snapshot()), call)
    {
      var owned := set id | id in accepted && accepted[id] == call;
      assert accepted - owned == map id | id in accepted && accepted[id] != call :: accepted[id];
      accepted := accepted - owned;
      if call !in settled {
        settled := settled[call := Cancelled];
      }
    }

    method AcceptOutbound(id: FrameId, sequence: int) returns (error: Option<ControlError>)
      modifies this
      ensures Snapshot() == AfterAccepted(old(Snapshot()), id, sequence)
      ensures error == AcceptedError(old(Snapshot()), id, sequence)
    {
      if sequence < 1 {
        return Some(InvalidAcknowledgement);
      }
      if pendingFrame.None? {
        return None;
      }
      if pendingFrame.value.id != id || pendingFrame.value.sequence != sequence {
        return Some(AcknowledgementMismatch);
      }
      backpressuredFrameId := None;
      outboundSequence := sequence;
      pendingFrame := None;
      if failedPendingFrameId == Some(id) {
        failedPendingFrameId := None;
      }
      Settle(id, Acknowledged);
      return None;
    }

    method HandleBackpressure(id: FrameId, sequence: int, socketOpen: bool) returns (error: Option<ControlError>)
      modifies this`backpressuredFrameId, this`failedPendingFrameId
      ensures Snapshot() == AfterBackpressure(config, old(Snapshot()), id, sequence, socketOpen)
      ensures error == BackpressureError(config, old(Snapshot()), id, sequence)
    {
      if pendingFrame.None? || pendingFrame.value.id != id || pendingFrame.value.sequence != sequence {
        return None;
      }
      if pendingFrame.value.senderDeviceId != config.deviceId || pendingFrame.value.senderEpoch != config.epoch {
        return Some(PendingOwnerInvalid);
      }
      if !socketOpen {
        return None;
      }
      backpressuredFrameId := Some(id);
      if failedPendingFrameId == Some(id) {
        failedPendingFrameId := None;
      }
      return None;
    }

    method ReconcileSocketReady(r: SocketReady, freshId: FrameId) returns (branch: Branch)
      modifies this
      ensures branch == BranchFor(config, old(Snapshot()), r)
      ensures Snapshot() == AfterReady(config, old(Snapshot()), r, freshId)
    {
      peerCapabilities := r.capabilities;
      if r.deviceId != config.deviceId || r.epoch != config.epoch
         || r.lastInboundSequence < 0 || r.lastAcknowledgedSequence < 0
         || (r.lastInboundSequence == 0 && r.lastInboundFrameId.Some?)
      {
        return Invalid;
      }
      var server := r.lastInboundSequence;
      if pendingFrame.None? {
        backpressuredFrameId := None;
        MergeCounters(r);
        return Idle;
      }
      var p := pendingFrame.value;
      if p.senderDeviceId != config.deviceId || p.senderEpoch != config.epoch {
        return WrongOwner;
      }
      if p.sequence == server && Some(p.id) == r.lastInboundFrameId {
        backpressuredFrameId := None;
        MergeCounters(r);
        pendingFrame := None;
        if failedPendingFrameId == Some(p.id) {
          failedPendingFrameId := None;
        }
        Settle(p.id, Acknowledged);
        return Branch.Settle;
      }
      if p.presentation && StateBackedPresentation !in peerCapabilities {
        return RefusePresentation;
      }
      if failedPendingFrameId == Some(p.id) {
        MergeCounters(r);
        outboundSequence := server;
        pendingFrame, failedPendingFrameId := None, None;
        Settle(p.id, DeliveryFailed);
        return DropFailed;
      }
      if p.target.Some? && DirectedFrames !in peerCapabilities {
        backpressuredFrameId := None;
        MergeCounters(r);
        pendingFrame := None;
        Settle(p.id, DirectedRetired);
        return RetireDirected;
      }
      MergeCounters(r);
      if p.sequence == server + 1 {
        return Keep;
      }
      RebasePending(p, r, freshId);
      return Rebase;
    }

    // A conflicting frame is re-enveloped under a new identity; its waiting future moves with it.
    method RebasePending(p: Frame, r: SocketReady, freshId: FrameId)
      modifies this`pendingFrame, this`backpressuredFrameId, this`accepted
      ensures pendingFrame == Some(Rebased(config, p, r, freshId))
      ensures backpressuredFrameId == if old(backpressuredFrameId) == Some(p.id) then Some(freshId)
                                      else old(backpressuredFrameId)
      ensures accepted == if p.id in old(accepted) then (old(accepted) - {p.id})[freshId := old(accepted)[p.id]]
                          else old(accepted)
    {
      var rebased := Frame(freshId, config.deviceId, config.epoch, r.lastInboundSequence + 1,
                           Max(p.ack, r.lastAcknowledgedSequence), Seal(Open(p.ciphertext), freshId),
                           p.target, p.presentation);
      if backpressuredFrameId == Some(p.id) {
        backpressuredFrameId := Some(rebased.id);
      }
      pendingFrame := Some(rebased);
      if p.id in accepted {
        var call := accepted[p.id];
        accepted := accepted - {p.id};
        accepted := accepted[rebased.id := call];
      }
    }

    method MergeCounters(r: SocketReady)
      modifies this`outboundSequence, this`lastReceivedSequence
      ensures outboundSequence == Max(old(outboundSequence), r.lastInboundSequence)
      ensures lastReceivedSequence == Max(old(lastReceivedSequence), r.lastAcknowledgedSequence)
    {
      if outboundSequence < r.lastInboundSequence {
        outboundSequence := r.lastInboundSequence;
      }
      if lastReceivedSequence < r.lastAcknowledgedSequence {
        lastReceivedSequence := r.lastAcknowledgedSequence;
      }
    }
  }

  /**
    What an accepted readiness leaves behind, from any stored state: no pending frame, or one at
    the relay's next sequence carrying the same payload to the same recipient in the same class.
  */
  lemma ReconciliationRestoresOrder(cfg: Config, t: Transport, r: SocketReady, id: FrameId)
    requires !BranchFor(cfg, t, r).Refused()
    ensures var t' := AfterReady(cfg, t, r, id);
      t'.pending.Some? ==>
        && t.pending.Some?
        && t'.pending.value.sequence == r.lastInboundSequence + 1
        && OwnedBy(cfg, t'.pending.value)
        && Open(t'.pending.value.ciphertext) == Open(t.pending.value.ciphertext)
        && t'.pending.value.target == t.pending.value.target
        && t'.pending.value.presentation == t.pending.value.presentation
        && (t'.pending.value.target.Some? ==> DirectedFrames in r.capabilities)
        && (t'.pending.value.presentation ==> StateBackedPresentation in r.capabilities)
        && (t'.pending == t.pending || t'.pending.value.id == id)
  {
  }

  // The sequence the client will offer next: the pending frame's, or the one a new send would take.
  function NextOffered(t: Transport): int {
    if t.pending.Some? then t.pending.value.sequence else t.outbound + 1
  }

  /**
    What one accepted readiness does to the next offer: it becomes the relay's next sequence, except
    exactly when nothing was pending, or a directed frame was retired, or the pending frame settled,
    while the stored counter runs ahead of the relay.
  */
  lemma NextOfferAfterReady(cfg: Config, t: Transport, r: SocketReady, id: FrameId)
    requires !BranchFor(cfg, t, r).Refused()
    ensures NextOffered(AfterReady(cfg, t, r, id)) == r.lastInboundSequence + 1
            <==> (BranchFor(cfg, t, r) in {Idle, RetireDirected, Settle} ==> t.outbound <= r.lastInboundSequence)
  {
  }

  // What can happen to a send between its frame being stored and the next readiness.
  datatype LostSend = Unmarked | Marked(preserve: bool) | Crashed

  function AfterLostSend(t: Transport, call: CallId, lost: LostSend): Transport {
    match lost
    case Unmarked => t
    case Marked(preserve) => AfterSendEnded(AfterSendFailed(t, call, preserve), call)
    case Crashed => AfterRestart(t)
  }

  /**
    Self-stabilisation, from any stored state: one accepted readiness that leaves nothing pending, one
    send that is never acknowledged, and a second accepted readiness make the next offer the relay's
    next sequence - unless the second readiness retires the frame because the relay no longer takes
    directed frames, and even then exactly when the counter the first one left is ahead.
  */
  lemma SelfStabilising(
    cfg: Config, t: Transport, first: SocketReady, request: Request, id: FrameId, call: CallId,
    lost: LostSend, second: SocketReady, newId: FrameId)
    requires !BranchFor(cfg, t, first).Refused() && AfterReady(cfg, t, first, id).pending.None?
    ensures var begun := AfterSendBegun(cfg, AfterReady(cfg, t, first, id), request, id, call);
      var before := AfterLostSend(begun, call, lost);
      !BranchFor(cfg, before, second).Refused() ==>
        (NextOffered(AfterReady(cfg, before, second, newId)) == second.lastInboundSequence + 1
         <==> (BranchFor(cfg, before, second) == RetireDirected ==>
                 AfterReady(cfg, t, first, id).outbound <= second.lastInboundSequence))
  {
    var begun := AfterSendBegun(cfg, AfterReady(cfg, t, first, id), request, id, call);
    var before := AfterLostSend(begun, call, lost);
    assert before.pending == begun.pending && before.outbound == begun.outbound;
    if !BranchFor(cfg, before, second).Refused() {
      NextOfferAfterReady(cfg, before, second, newId);
    }
  }

  // Witness that the exception is reachable: a counter at 10 offers 11 to a relay still at 3.
  lemma DirectedRetirementDoesNotReanchor()
    ensures exists cfg, t, r: SocketReady, id ::
              BranchFor(cfg, t, r) == RetireDirected && NextOffered(AfterReady(cfg, t, r, id)) == 11
              && r.lastInboundSequence == 3
  {
    var cfg := Config("host", 1, {});
    var p := Frame(1, "host", 1, 11, 0, Seal("", 1), Some("phone"), false);
    var t := Transport(10, Some(p), None, 0, map[], map[], None, {}, false);
    var r := SocketReady("host", 1, 3, Some(0), 0, {});
    assert BranchFor(cfg, t, r) == RetireDirected;
    assert NextOffered(AfterReady(cfg, t, r, 2)) == 11;
  }

  /**
    A pending frame left by another device or authorization epoch blocks the client for good: no
    readiness whatsoever changes what is pending, and none is accepted.
  */
  lemma ForeignPendingIsNeverReconciled(cfg: Config, t: Transport, r: SocketReady, id: FrameId)
    requires t.pending.Some?
    ensures !OwnedBy(cfg, t.pending.value) ==>
              BranchFor(cfg, t, r).Refused() && AfterReady(cfg, t, r, id) == t.(peer := r.capabilities)
  {
  }

  // What a readiness does to the pending frame and the futures, branch by branch.
  lemma ReadyEffects(cfg: Config, t: Transport, r: SocketReady, id: FrameId)
    ensures var t', branch := AfterReady(cfg, t, r, id), BranchFor(cfg, t, r);
      && (branch != Rebase ==>
            && (t'.pending == t.pending || t'.pending.None?)
            && (t'.accepted == t.accepted || (t.pending.Some? && t'.accepted == t.accepted - {t.pending.value.id})))
      && (branch == Rebase ==>
            && t.pending.Some? && t'.pending == Some(Rebased(cfg, t.pending.value, r, id))
            && t'.settled == t.settled
            && t'.accepted == if t.pending.value.id in t.accepted
                              then (t.accepted - {t.pending.value.id})[id := t.accepted[t.pending.value.id]]
                              else t.accepted)
  {
  }

  // The only future a readiness can settle is the one waiting on the pending frame it takes away.
  lemma ReadySettles(cfg: Config, t: Transport, r: SocketReady, id: FrameId)
    ensures var t', branch := AfterReady(cfg, t, r, id), BranchFor(cfg, t, r);
      t'.settled == t.settled
      || (&& t.pending.Some? && t'.pending.None? && t.pending.value.id in t.accepted
          && var call := t.accepted[t.pending.value.id];
          && call !in t.settled
          && t'.settled == t.settled[call := if branch == Settle then Acknowledged
                                             else if branch == DropFailed then DeliveryFailed else DirectedRetired]
          && (branch == Settle ==> Some(t.pending.value.id) == r.lastInboundFrameId))
  {
  }

  // ---- Sends, one by one ----

  /** A send passes its entry checks if and only if it is authorized, a tool request names a device, and the peer takes directed frames. */
  lemma EntersIff(t: Transport, request: Request)
    ensures EntryError(t, request).None? <==>
              !t.denied && (request.deviceTool ==> request.target.Some?) && (request.target.Some? ==> DirectedFrames in t.peer)
    ensures EntryError(t, request) == Some(NotAuthorized) <==> t.denied
    ensures EntryError(t, request) == Some(DirectedNotNegotiated) <==> !t.denied && request.target.Some? && DirectedFrames !in t.peer
  {
  }

  /**
    A frame built for a request opens to its payload and goes to its recipient, under this device and
    epoch, one past the counter, acknowledging what was received; it is a presentation exactly if the
    request is transient and both sides keep state. Storing it disturbs no other future.
  */
  lemma FrameMeetsRequest(cfg: Config, t: Transport, request: Request, id: FrameId, call: CallId)
    requires t.pending.None?
    ensures var t' := AfterSendBegun(cfg, t, request, id, call);
      && t'.pending.Some?
      && var f := t'.pending.value;
      && f.id == id && f.senderDeviceId == cfg.deviceId && f.senderEpoch == cfg.epoch
      && f.sequence == t.outbound + 1 && f.ack == t.lastReceived && f.target == request.target
      && Open(f.ciphertext) == request.payload
      && (f.presentation <==> request.transient && StateBackedPresentation in t.peer && StateBackedPresentation in cfg.capabilities)
      && id in t'.accepted && t'.accepted[id] == call
      && (forall other :: other in t.accepted && other != id ==> other in t'.accepted && t'.accepted[other] == t.accepted[other])
      && (t'.outbound, t'.failed, t'.lastReceived, t'.settled, t'.backpressured) == (t.outbound, t.failed, t.lastReceived, t.settled, t.backpressured)
  {
  }

  /**
    What a failed send decides. If it may mark its frame - not preserved, not denied, not backpressured,
    and the pending frame still its own - then every accepted readiness either finds the frame admitted or
    drops it; in every other case nothing changes.
  */
  lemma FailedSendIsDropped(cfg: Config, t: Transport, call: CallId, preserve: bool, r: SocketReady)
    ensures var mine := t.pending.Some? && t.pending.value.id in t.accepted && t.accepted[t.pending.value.id] == call;
      var t' := AfterSendFailed(t, call, preserve);
      if mine && !preserve && !t.denied && t.backpressured != Some(t.pending.value.id)
      then t' == t.(failed := Some(t.pending.value.id))
           && (BranchFor(cfg, t', r).Refused() || BranchFor(cfg, t', r) in {Settle, DropFailed})
      else t' == t
  {
  }

  /**
    A backpressured frame is never dropped as failed: whatever its send does afterwards, no readiness drops
    it. A control for any other frame, or without a socket, changes nothing.
  */
  lemma BackpressuredIsNotDropped(cfg: Config, t: Transport, id: FrameId, sequence: int, open: bool, call: CallId, preserve: bool, r: SocketReady)
    ensures var t' := AfterBackpressure(cfg, t, id, sequence, open);
      if t.pending.Some? && t.pending.value.id == id && t.pending.value.sequence == sequence && OwnedBy(cfg, t.pending.value) && open
      then t'.backpressured == Some(id) && t'.failed != Some(id) && t'.pending == t.pending && t'.accepted == t.accepted
           && BranchFor(cfg, AfterSendFailed(t', call, preserve), r) != DropFailed
      else t' == t
  {
  }

  /** A call that ends waits for nothing any more, has an outcome, and leaves every other call as it was. */
  lemma EndedWaitsForNothing(t: Transport, call: CallId)
    ensures var t' := AfterSendEnded(t, call);
      && (forall id :: id in t'.accepted <==> id in t.accepted && t.accepted[id] != call)
      && (forall id :: id in t'.accepted ==> t'.accepted[id] == t.accepted[id])
      && call in t'.settled && (call !in t.settled ==> t'.settled[call] == Cancelled)
      && (forall c :: c in t.settled ==> c in t'.settled && t'.settled[c] == t.settled[c])
      && (t'.pending, t'.outbound, t'.failed) == (t.pending, t.outbound, t.failed)
  {
  }

  /**
    An acknowledgement of exactly the pending frame resolves the future waiting on it, moves the counter
    there and forgets every mark of the frame; any other is an error, or finds nothing pending, and
    changes nothing.
  */
  lemma AcknowledgedResolves(t: Transport, id: FrameId, sequence: int)
    ensures var t' := AfterAccepted(t, id, sequence);
      var exact := sequence >= 1 && t.pending.Some? && t.pending.value.id == id && t.pending.value.sequence == sequence;
      && (exact ==>
            && t'.pending.None? && t'.outbound == sequence && t'.backpressured.None? && t'.failed != Some(id) && id !in t'.accepted
            && (t.failed != Some(id) ==> t'.failed == t.failed)
            && (id in t.accepted && t.accepted[id] !in t.settled ==>
                  t'.settled == t.settled[t.accepted[id] := Acknowledged])
            && (id !in t.accepted ==> t'.settled == t.settled))
      && (!exact ==> t' == t && (AcceptedError(t, id, sequence).None? <==> sequence >= 1 && t.pending.None?))
  {
  }

  /** Revocation answers every waiting call with the denial, once, and refuses every later send. */
  lemma DeniedAnswersAll(t: Transport, request: Request)
    ensures var t' := AfterDenied(t);
      && EntryError(t', request) == Some(NotAuthorized) && t'.pending == t.pending
      && (forall id :: id in t.accepted ==>
            t.accepted[id] in t'.settled && (t.accepted[id] !in t.settled ==> t'.settled[t.accepted[id]] == AuthorizationDenied))
      && (forall c :: c in t.settled ==> c in t'.settled && t'.settled[c] == t.settled[c])
  {
    forall id | id in t.accepted ensures t.accepted[id] in t.accepted.Values {
    }
  }

  /**
    What an accepted readiness makes the client adopt: the peer's capabilities, the higher of the two
    receive counters, and the relay's send counter, outright if it dropped a failed frame and otherwise
    if it is the higher.
  */
  lemma ReadinessIsAdopted(cfg: Config, t: Transport, r: SocketReady, id: FrameId)
    requires !BranchFor(cfg, t, r).Refused()
    ensures var t' := AfterReady(cfg, t, r, id);
      && t'.peer == r.capabilities
      && t'.lastReceived >= t.lastReceived && t'.lastReceived >= r.lastAcknowledgedSequence
      && t'.lastReceived in {t.lastReceived, r.lastAcknowledgedSequence}
      && t'.outbound >= r.lastInboundSequence && t'.outbound in {t.outbound, r.lastInboundSequence}
      && (t.pending.Some? && t.failed == Some(t.pending.value.id) && t'.pending.None?
          && !(t.pending.value.sequence == r.lastInboundSequence && Some(t.pending.value.id) == r.lastInboundFrameId)
          ==> t'.outbound == r.lastInboundSequence && t'.failed.None?)
      && (t'.pending.None? ==> t'.failed.None? || t'.failed == t.failed)
      && (t'.pending.Some? ==> t'.outbound >= t.outbound && t'.failed == t.failed && t'.settled == t.settled)
  {
  }

  /** A readiness is accepted if and only if it is this device's, well formed, and no foreign or unkeepable frame is pending. */
  lemma ReadinessAcceptedIff(cfg: Config, t: Transport, r: SocketReady, id: FrameId)
    ensures !BranchFor(cfg, t, r).Refused() <==>
              && r.deviceId == cfg.deviceId && r.epoch == cfg.epoch && 0 <= r.lastInboundSequence && 0 <= r.lastAcknowledgedSequence
              && (r.lastInboundSequence == 0 ==> r.lastInboundFrameId.None?)
              && (t.pending.Some? ==>
                    var p := t.pending.value;
                    && p.senderDeviceId == cfg.deviceId && p.senderEpoch == cfg.epoch
                    && ((p.sequence == r.lastInboundSequence && Some(p.id) == r.lastInboundFrameId)
                        || !p.presentation || StateBackedPresentation in r.capabilities))
    ensures BranchFor(cfg, t, r).Refused() ==> AfterReady(cfg, t, r, id) == t.(peer := r.capabilities)
  {
  }

  /**
    What becomes of an owned pending frame under an accepted readiness: settled if and only if the relay
    names it exactly; else dropped if and only if it is marked failed; else retired if and only if it is
    directed and the relay takes no directed frames; else kept, or moved with its future to the next place.
  */
  lemma PendingFate(cfg: Config, t: Transport, r: SocketReady, id: FrameId)
    requires t.pending.Some? && !BranchFor(cfg, t, r).Refused()
    ensures var p, t' := t.pending.value, AfterReady(cfg, t, r, id);
      var exact := p.sequence == r.lastInboundSequence && Some(p.id) == r.lastInboundFrameId;
      var failed := !exact && t.failed == Some(p.id);
      var retired := !exact && !failed && p.target.Some? && DirectedFrames !in r.capabilities;
      var waits := p.id in t.accepted && t.accepted[p.id] !in t.settled;
      && (t'.pending.None? <==> exact || failed || retired)
      && (t'.pending.None? && waits ==>
            t'.settled == t.settled[t.accepted[p.id] := if exact then Acknowledged else if failed then DeliveryFailed else DirectedRetired])
      && (t'.pending.None? ==> p.id !in t'.accepted)
      && (t'.pending.Some? && p.sequence == r.lastInboundSequence + 1 ==> t'.pending == t.pending && t'.accepted == t.accepted)
      && (t'.pending.Some? && p.sequence != r.lastInboundSequence + 1 ==>
            && t'.pending.value.id == id && t'.pending.value.sequence == r.lastInboundSequence + 1
            && t'.pending.value.ack >= p.ack && t'.pending.value.ack >= r.lastAcknowledgedSequence
            && t'.pending.value.ack in {p.ack, r.lastAcknowledgedSequence}
            && (p.id in t.accepted ==> id in t'.accepted && t'.accepted[id] == t.accepted[p.id])
            && (p.id != id ==> p.id !in t'.accepted)
            && (t.backpressured == Some(p.id) ==> t'.backpressured == Some(id)))
  {
  }

  /**
    A crash loses no frame: what a new process finds pending is settled, dropped or retired by its first
    accepted readiness exactly as the old one's would be, and otherwise it offers the same payload to the
    same recipient, at the relay's next place. Its counters are the old ones.
  */
  lemma RestartKeepsTheFrame(cfg: Config, t: Transport, r: SocketReady, id: FrameId)
    requires t.pending.Some? && !BranchFor(cfg, t, r).Refused()
    ensures var reborn, t' := AfterRestart(t), AfterReady(cfg, AfterRestart(t), r, id);
      && (reborn.outbound, reborn.pending, reborn.failed, reborn.lastReceived) == (t.outbound, t.pending, t.failed, t.lastReceived)
      && reborn.accepted == map[] && reborn.peer == {} && !reborn.denied && !BranchFor(cfg, reborn, r).Refused()
      && (t'.pending.None? <==> AfterReady(cfg, t, r, id).pending.None?) && t'.outbound == AfterReady(cfg, t, r, id).outbound
      && (t'.pending.Some? ==>
            && Open(t'.pending.value.ciphertext) == Open(t.pending.value.ciphertext) && t'.pending.value.target == t.pending.value.target
            && t'.pending.value.sequence == r.lastInboundSequence + 1)
  {
    ReconciliationRestoresOrder(cfg, AfterRestart(t), r, id);
  }
}
