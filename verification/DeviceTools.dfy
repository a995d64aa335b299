/**
  The device tool bridge: it correlates tool calls with one request to a phone and the phone's one
  answer. A call is a coroutine that suspends while sending and while waiting; between suspensions a
  step is atomic. Each transition is a function on `Bridge`, and the class runs it on its fields.
*/
module DeviceTools {
  import Sets
  import opened Sequences
  import opened Wrappers

  const MAX_PENDING := 128
  const MAX_OUTCOMES := 256
  const MAX_STATUSES := 32
  const STATUS_MAX_AGE := 120
  const STATUS_MAX_FUTURE := 30

  type Text = string
  type ClientId = nat
  type CallId = nat
  type Serial = nat       // the identity of one pending request object

  datatype Client = Client(id: ClientId, hostId: Text)

  datatype Verb = Read | List | Create | Update | Delete
  datatype Operation = Operation(capability: Text, verb: Verb)

  // The digest of the operation and its arguments is taken to be collision-free, and so is the
  // request id, a digest of the coordinates and the tool call id.
  datatype Fingerprint = Fingerprint(operation: Operation, arguments: Text)
  datatype Target = Target(deviceId: Text, hostId: Text, epoch: int)
  datatype Coordinates = Coordinates(target: Target, sessionId: Text, agentId: Text, turnId: Text)
  datatype RequestId = RequestId(coordinates: Coordinates, toolCallId: Text)

  datatype Field = Id | Revision | Deleted | Private(name: Text)

  datatype Code =
    | OwnerChanged | CallIdentityMissing | Unavailable | AuthorizationRequired | DirectedFramesUnavailable
    | RequestConflict | RequestTooLarge | Busy | TimedOut | DeliveryUncertain

  datatype Answer = FromPhone(status: Text, payload: map<Field, Text>) | Failed(code: Code)

  datatype Status = Status(target: Target, sentAt: int, available: bool, enabled: set<Text>)

  datatype Pending = Pending(serial: Serial, sentAt: int, fingerprint: Fingerprint)

  datatype Future = Unset | Set(answer: Answer)

  // `owner` is history: the client the recorded call was made under.
  datatype Entry = Entry(request: RequestId, fingerprint: Fingerprint, answer: Answer, owner: ClientId)

  // A suspended call: the originator while its send is in progress, or anyone awaiting the future.
  datatype Call = Call(request: RequestId, serial: Serial, fingerprint: Fingerprint, client: ClientId, sending: bool)

  datatype Bridge = Bridge(
    client: Option<Client>,
    statuses: seq<Status>,                 // least recently accepted first
    pending: map<RequestId, Pending>,
    outcomes: seq<Entry>,                  // least recently used first
    futures: map<Serial, Future>,
    calls: map<CallId, Call>,
    nextSerial: Serial,
    submitted: seq<RequestId>,             // history: mutations handed to the transport
    forgotten: seq<RequestId>)             // history: mutations whose pending entry or outcome was lost

  predicate IsRead(op: Operation) { op.verb.Read? || op.verb.List? }

  // ---- The outcome cache ----

  function Without(es: seq<Entry>, r: RequestId): (out: seq<Entry>)
    ensures forall e :: e in out <==> e in es && e.request != r
    ensures |out| <= |es|
    ensures Distinct(es) ==> Distinct(out)
  {
    if es == [] then []
    else if es[0].request == r then Without(es[1..], r)
    else [es[0]] + Without(es[1..], r)
  }

  predicate Distinct(es: seq<Entry>) {
    forall i, j :: 0 <= i < j < |es| ==> es[i].request != es[j].request
  }

  function Position(es: seq<Entry>, r: RequestId): (i: nat)
    ensures i <= |es|
    ensures i < |es| ==> es[i].request == r
    ensures forall j :: 0 <= j < i ==> es[j].request != r
  {
    if es == [] || es[0].request == r then 0 else 1 + Position(es[1..], r)
  }

  predicate Has(es: seq<Entry>, r: RequestId) { Position(es, r) < |es| }

  function Ids(es: seq<Entry>): seq<RequestId> {
    seq(|es|, i requires 0 <= i < |es| => es[i].request)
  }

  function Redact(a: Answer): Answer {
    match a
    case FromPhone(status, payload) => FromPhone(status, map k | k in payload && !k.Private? :: payload[k])
    case Failed(_) => a
  }

  // _record_outcome
  function Record(b: Bridge, call: Call, answer: Answer): Bridge {
    if IsRead(call.fingerprint.operation) then b
    else
      var es := Without(b.outcomes, call.request) + [Entry(call.request, call.fingerprint, Redact(answer), call.client)];
      b.(outcomes := es[Excess(es, MAX_OUTCOMES)..], forgotten := b.forgotten + Ids(es[..Excess(es, MAX_OUTCOMES)]))
  }

  predicate IsCurrent(b: Bridge, call: Call) {
    call.request in b.pending && b.pending[call.request].serial == call.serial
  }

  function Pop(b: Bridge, call: Call): Bridge {
    if IsCurrent(b, call) then b.(pending := b.pending - {call.request}) else b
  }

  // A call ends with an answer: it is recorded, then the request it waited for stops being pending.
  function Finish(b: Bridge, id: CallId, answer: Answer): Bridge
    requires id in b.calls
  {
    var call := b.calls[id];
    var b1 := Pop(Record(b, call, answer), call);
    b1.(calls := b1.calls - {id})
  }

  // ---- Statuses ----

  function StatusAt(ss: seq<Status>, t: Target): (i: nat)
    ensures i <= |ss|
    ensures i < |ss| ==> ss[i].target == t
    ensures forall j :: 0 <= j < i ==> ss[j].target != t
  {
    if ss == [] || ss[0].target == t then 0 else 1 + StatusAt(ss[1..], t)
  }

  predicate Allowed(ss: seq<Status>, t: Target, capability: Text, now: int) {
    var i := StatusAt(ss, t);
    i < |ss| && ss[i].available && capability in ss[i].enabled && ss[i].sentAt >= now - STATUS_MAX_AGE
  }

  // Set every unset future of a pending request in `hit` to the failure.
  function FailPending(b: Bridge, hit: set<RequestId>, code: Code): Bridge {
    var serials := set r | r in b.pending && r in hit :: b.pending[r].serial;
    b.(futures := map s | s in b.futures ::
                    if s in serials && b.futures[s].Unset? then Set(Failed(code)) else b.futures[s])
  }

  function Covered(b: Bridge, s: Status): set<RequestId> {
    set r | r in b.pending && r.coordinates.target == s.target
            && (!s.available || b.pending[r].fingerprint.operation.capability !in s.enabled)
  }

  predicate Newer(ss: seq<Status>, s: Status) {
    var i := StatusAt(ss, s.target);
    i < |ss| ==> s.sentAt >= ss[i].sentAt && s != ss[i]
  }

  function PutStatus(ss: seq<Status>, s: Status): seq<Status> {
    var i := StatusAt(ss, s.target);
    var all := (if i < |ss| then ss[..i] + ss[i + 1..] else ss) + [s];
    all[Excess(all, MAX_STATUSES)..]
  }

  function AcceptStatus(b: Bridge, s: Status, addressee: Text, now: int): (Bridge, bool) {
    if b.client.None? || addressee != b.client.value.hostId || s.target.hostId != b.client.value.hostId
       || s.sentAt < now - STATUS_MAX_AGE || s.sentAt > now + STATUS_MAX_FUTURE || !Newer(b.statuses, s)
    then (b, false)
    else (FailPending(b.(statuses := PutStatus(b.statuses, s)), Covered(b, s), AuthorizationRequired), true)
  }

  // ---- The bridge ----

  // What a call finds in its surroundings: its context, its lease against the routes, the socket, the
  // reply route, the encoded size of the request, and the clock.
  datatype Surroundings = Surroundings(
    contextError: Option<Code>, leaseError: Option<Code>, connected: bool, routeError: Option<Code>, tooLarge: bool, now: int)

  datatype Reply = Refused(code: Code) | Replayed(answer: Answer) | Joined | Submitted

  // Everything _execute checks before it looks at the request id.
  function Guard(b: Bridge, r: RequestId, op: Operation, env: Surroundings): Option<Code> {
    var target := r.coordinates.target;
    if env.contextError.Some? then env.contextError
    else if r.toolCallId == [] then Some(CallIdentityMissing)
    else if env.leaseError.Some? then env.leaseError
    else if b.client.None? || !env.connected then Some(Unavailable)
    else if b.client.value.hostId == [] || b.client.value.hostId != target.hostId then Some(OwnerChanged)
    else if !Allowed(b.statuses, target, op.capability, env.now) then Some(AuthorizationRequired)
    else env.routeError
  }

  // The request is registered as pending, then handed to the transport.
  function Submit(b: Bridge, id: CallId, r: RequestId, fp: Fingerprint, now: int): Bridge {
    b.(pending := b.pending[r := Pending(b.nextSerial, now, fp)],
       futures := b.futures[b.nextSerial := Unset],
       calls := b.calls[id := Call(r, b.nextSerial, fp, if b.client.Some? then b.client.value.id else 0, true)],
       nextSerial := b.nextSerial + 1,
       submitted := if IsRead(fp.operation) then b.submitted else b.submitted + [r])
  }

  function Execute(b: Bridge, id: CallId, r: RequestId, fp: Fingerprint, env: Surroundings): (Bridge, Reply) {
    var guard := Guard(b, r, fp.operation, env);
    if guard.Some? then (b, Refused(guard.value))
    else if r in b.pending then
      if b.pending[r].fingerprint != fp then (b, Refused(RequestConflict))
      else (b.(calls := b.calls[id := Call(r, b.pending[r].serial, fp, b.client.value.id, false)]), Joined)
    else if Has(b.outcomes, r) then
      var e := b.outcomes[Position(b.outcomes, r)];
      if e.fingerprint != fp then (b, Refused(RequestConflict))
      else (b.(outcomes := Without(b.outcomes, r) + [e]), Replayed(e.answer))
    else if env.tooLarge then (b, Refused(RequestTooLarge))
    else if |b.pending| >= MAX_PENDING then (b, Refused(Busy))
    else (Submit(b, id, r, fp, env.now), Submitted)
  }

  // The send returns or raises; what may have crossed the transport is never sent again.
  function SendReturned(b: Bridge, id: CallId, failure: Option<Code>): Bridge
    requires id in b.calls
  {
    if failure.Some? then Finish(b, id, Failed(failure.value))
    else b.(calls := b.calls[id := b.calls[id].(sending := false)])
  }

  // The answer a waiting call comes back with, once its future is set.
  function Awaited(b: Bridge, call: Call, answer: Answer, env: Surroundings): Answer {
    if answer.Failed? then answer
    else if env.contextError.Some? then Failed(env.contextError.value)
    else if b.client.None? || b.client.value.id != call.client then Failed(OwnerChanged)
    else if env.routeError.Some? then Failed(env.routeError.value)
    else if !Allowed(b.statuses, call.request.coordinates.target, call.fingerprint.operation.capability, env.now)
    then Failed(AuthorizationRequired)
    else answer
  }

  predicate Waiting(b: Bridge, id: CallId) {
    id in b.calls && !b.calls[id].sending && b.calls[id].serial in b.futures
  }

  function Resume(b: Bridge, id: CallId, env: Surroundings): (Bridge, Answer)
    requires Waiting(b, id) && b.futures[b.calls[id].serial].Set?
  {
    var answer := Awaited(b, b.calls[id], b.futures[b.calls[id].serial].answer, env);
    (Finish(b, id, answer), answer)
  }

  function Expire(b: Bridge, id: CallId): (Bridge, Answer)
    requires id in b.calls
  {
    (Finish(b, id, Failed(TimedOut)), Failed(TimedOut))
  }

  // Cancelling a call pops its request without recording anything.
  function Cancel(b: Bridge, id: CallId): Bridge
    requires id in b.calls
  {
    var call := b.calls[id];
    var b1 := Pop(b, call);
    b1.(calls := b1.calls - {id},
        forgotten := if IsCurrent(b, call) && !IsRead(call.fingerprint.operation) then b.forgotten + [call.request] else b.forgotten)
  }

  datatype Message = Message(request: RequestId, coordinates: Coordinates, operation: Operation, sentAt: int, status: Text, payload: map<Field, Text>)

  // An authenticated result; `routed` says it came back over the route the request went out on.
  function AcceptResult(b: Bridge, m: Message, addressee: Text, routed: bool): (Bridge, bool) {
    var r := m.request;
    if b.client.None? || addressee != b.client.value.hostId || m.coordinates.target.hostId != b.client.value.hostId then (b, false)
    else if r !in b.pending || m.coordinates != r.coordinates || m.operation != b.pending[r].fingerprint.operation then (b, false)
    else if !routed || m.sentAt < b.pending[r].sentAt then (b, false)
    else
      var s := b.pending[r].serial;
      (if s in b.futures && b.futures[s].Unset? then b.(futures := b.futures[s := Set(FromPhone(m.status, m.payload))]) else b, true)
  }

  function Bind(b: Bridge, client: Option<Client>): Bridge {
    if client == b.client then b
    else FailPending(b.(statuses := [], outcomes := [], forgotten := b.forgotten + Ids(b.outcomes)), b.pending.Keys, OwnerChanged)
         .(client := client)
  }

  function Retire(b: Bridge, routed: set<Target>, hit: set<RequestId>): Bridge {
    FailPending(b.(statuses := Unrouted(b.statuses, routed)), hit, OwnerChanged)
  }

  function Unrouted(ss: seq<Status>, routed: set<Target>): seq<Status> {
    if ss == [] then []
    else if ss[0].target in routed then Unrouted(ss[1..], routed)
    else [ss[0]] + Unrouted(ss[1..], routed)
  }

  class DeviceToolBridge {
    var client: Option<Client>
    var statuses: seq<Status>
    var pending: map<RequestId, Pending>
    var outcomes: seq<Entry>
    var futures: map<Serial, Future>
    var calls: map<CallId, Call>
    var nextSerial: Serial
    var submitted: seq<RequestId>
    var forgotten: seq<RequestId>

    function Snapshot(): Bridge
      reads this
    {
      Bridge(client, statuses, pending, outcomes, futures, calls, nextSerial, submitted, forgotten)
    }

    constructor ()
      ensures Snapshot() == Initial(None)
    {
      client, statuses, pending, outcomes, futures := None, [], map[], [], map[];
      calls, nextSerial, submitted, forgotten := map[], 0, [], [];
    }

    // OrderedDict.pop with a default
    static method Remove(es: seq<Entry>, r: RequestId) returns (out: seq<Entry>)
      ensures out == Without(es, r)
    {
      out := [];
      var i := |es|;
      while i > 0
        invariant 0 <= i <= |es|
        invariant out == Without(es[i..], r)
      {
        i := i - 1;
        assert es[i..][1..] == es[i + 1..];
        if es[i].request != r {
          out := [es[i]] + out;
        }
      }
    }

    static method Find(es: seq<Entry>, r: RequestId) returns (i: nat)
      ensures i == Position(es, r)
    {
      i := 0;
      while i < |es| && es[i].request != r
        invariant i <= |es|
        invariant Position(es, r) == i + Position(es[i..], r)
      {
        assert es[i..][1..] == es[i + 1..];
        i := i + 1;
      }
    }

    // popitem(last=False) until the cache fits
    static method EvictOldest(es: seq<Entry>) returns (kept: seq<Entry>, evicted: seq<RequestId>)
      ensures kept == es[Excess(es, MAX_OUTCOMES)..] && evicted == Ids(es[..Excess(es, MAX_OUTCOMES)])
    {
      kept, evicted := es, [];
      ghost var k := 0;
      while |kept| > MAX_OUTCOMES
        invariant k <= |es| && kept == es[k..] && k <= Excess(es, MAX_OUTCOMES)
        invariant evicted == Ids(es[..k])
      {
        evicted := evicted + [kept[0].request];
        kept := kept[1..];
        k := k + 1;
        assert evicted == Ids(es[..k]);
      }
    }

    method RecordOutcome(call: Call, answer: Answer)
      modifies this
      ensures Snapshot() == Record(old(Snapshot()), call, answer)
    {
      if IsRead(call.fingerprint.operation) { return; }
      var rest := Remove(outcomes, call.request);
      var kept, evicted := EvictOldest(rest + [Entry(call.request, call.fingerprint, Redact(answer), call.client)]);
      outcomes, forgotten := kept, forgotten + evicted;
    }

    method FinishCall(id: CallId, answer: Answer)
      requires id in calls
      modifies this
      ensures Snapshot() == Finish(old(Snapshot()), id, answer)
    {
      var call := calls[id];
      RecordOutcome(call, answer);
      if call.request in pending && pending[call.request].serial == call.serial {
        pending := pending - {call.request};
      }
      calls := calls - {id};
    }

    method ExecuteCall(id: CallId, r: RequestId, fp: Fingerprint, env: Surroundings) returns (reply: Reply)
      modifies this
      ensures (Snapshot(), reply) == Execute(old(Snapshot()), id, r, fp, env)
    {
      var guard := Guard(Snapshot(), r, fp.operation, env);
      if guard.Some? { return Refused(guard.value); }
      if r in pending {
        if pending[r].fingerprint != fp { return Refused(RequestConflict); }
        calls := calls[id := Call(r, pending[r].serial, fp, client.value.id, false)];
        return Joined;
      }
      var i := Find(outcomes, r);
      if i < |outcomes| {
        var e := outcomes[i];
        if e.fingerprint != fp { return Refused(RequestConflict); }
        var rest := Remove(outcomes, r);
        outcomes := rest + [e];
        return Replayed(e.answer);
      }
      if env.tooLarge { return Refused(RequestTooLarge); }
      if |pending| >= MAX_PENDING { return Refused(Busy); }
      var serial := nextSerial;
      nextSerial := nextSerial + 1;
      pending := pending[r := Pending(serial, env.now, fp)];
      futures := futures[serial := Unset];
      calls := calls[id := Call(r, serial, fp, client.value.id, true)];
      submitted := if IsRead(fp.operation) then submitted else submitted + [r];
      return Submitted;
    }

    method SendReturns(id: CallId, failure: Option<Code>)
      requires id in calls
      modifies this
      ensures Snapshot() == SendReturned(old(Snapshot()), id, failure)
    {
      if failure.Some? {
        FinishCall(id, Failed(failure.value));
      } else {
        calls := calls[id := calls[id].(sending := false)];
      }
    }

    method AwaitReturns(id: CallId, env: Surroundings) returns (answer: Answer)
      requires Waiting(Snapshot(), id) && futures[calls[id].serial].Set?
      modifies this
      ensures (Snapshot(), answer) == Resume(old(Snapshot()), id, env)
    {
      var call := calls[id];
      answer := futures[call.serial].answer;
      if answer.FromPhone? {
        if env.contextError.Some? {
          answer := Failed(env.contextError.value);
        } else if client.None? || client.value.id != call.client {
          answer := Failed(OwnerChanged);
        } else if env.routeError.Some? {
          answer := Failed(env.routeError.value);
        } else if !Allowed(statuses, call.request.coordinates.target, call.fingerprint.operation.capability, env.now) {
          answer := Failed(AuthorizationRequired);
        }
      }
      FinishCall(id, answer);
    }

    method AwaitTimesOut(id: CallId) returns (answer: Answer)
      requires id in calls
      modifies this
      ensures (Snapshot(), answer) == Expire(old(Snapshot()), id)
    {
      answer := Failed(TimedOut);
      FinishCall(id, answer);
    }

    method ResultArrives(m: Message, addressee: Text, routed: bool) returns (accepted: bool)
      modifies this
      ensures (Snapshot(), accepted) == AcceptResult(old(Snapshot()), m, addressee, routed)
    {
      if client.None? || addressee != client.value.hostId || m.coordinates.target.hostId != client.value.hostId {
        return false;
      }
      if m.request !in pending || m.coordinates != m.request.coordinates
         || m.operation != pending[m.request].fingerprint.operation
      {
        return false;
      }
      if !routed || m.sentAt < pending[m.request].sentAt { return false; }
      var s := pending[m.request].serial;
      if s in futures && futures[s].Unset? {
        futures := futures[s := Set(FromPhone(m.status, m.payload))];
      }
      return true;
    }

    method FailRequests(hit: set<RequestId>, code: Code)
      modifies this
      ensures Snapshot() == FailPending(old(Snapshot()), hit, code)
    {
      var serials := set r | r in pending && r in hit :: pending[r].serial;
      futures := map s | s in futures :: if s in serials && futures[s].Unset? then Set(Failed(code)) else futures[s];
    }

    static method StoreStatus(ss: seq<Status>, s: Status) returns (out: seq<Status>)
      ensures out == PutStatus(ss, s)
    {
      var i := StatusAt(ss, s.target);
      out := ss;
      if i < |ss| {
        out := out[..i] + out[i + 1..];
      }
      out := out + [s];
      ghost var all, k := out, 0;
      while |out| > MAX_STATUSES
        invariant k <= |all| && out == all[k..]
        invariant k > 0 ==> |out| >= MAX_STATUSES
      {
        out := out[1..];
        k := k + 1;
      }
    }

    method StatusArrives(s: Status, addressee: Text, now: int) returns (accepted: bool)
      modifies this
      ensures (Snapshot(), accepted) == AcceptStatus(old(Snapshot()), s, addressee, now)
    {
      if client.None? || addressee != client.value.hostId || s.target.hostId != client.value.hostId
         || s.sentAt < now - STATUS_MAX_AGE || s.sentAt > now + STATUS_MAX_FUTURE
      {
        return false;
      }
      var i := StatusAt(statuses, s.target);
      if i < |statuses| && (s.sentAt < statuses[i].sentAt || s == statuses[i]) { return false; }
      statuses := StoreStatus(statuses, s);
      FailRequests(Covered(Snapshot(), s), AuthorizationRequired);
      return true;
    }

    method BindLinkClient(next: Option<Client>)
      modifies this
      ensures Snapshot() == Bind(old(Snapshot()), next)
    {
      if next != client {
        statuses := [];
        forgotten := forgotten + Ids(outcomes);
        outcomes := [];
        FailRequests(pending.Keys, OwnerChanged);
      }
      client := next;
    }
  }

  function Initial(client: Option<Client>): Bridge { Bridge(client, [], map[], [], map[], map[], 0, [], []) }

  // ---- Runs ----

  datatype Step =
    | ExecuteStep(id: CallId, request: RequestId, fingerprint: Fingerprint, env: Surroundings)
    | SendStep(id: CallId, failure: Option<Code>)
    | ResumeStep(id: CallId, env: Surroundings)
    | ExpireStep(id: CallId)
    | CancelStep(id: CallId)
    | ResultStep(message: Message, addressee: Text, routed: bool)
    | StatusStep(status: Status, addressee: Text, now: int)
    | RetireStep(targets: set<Target>, hit: set<RequestId>)
    | BindStep(client: Option<Client>)

  // A step whose call is not in a state to take it changes nothing.
  function Apply(b: Bridge, step: Step): Bridge {
    match step
    case ExecuteStep(id, r, fp, env) => if id in b.calls then b else Execute(b, id, r, fp, env).0
    case SendStep(id, failure) => if id in b.calls && b.calls[id].sending then SendReturned(b, id, failure) else b
    case ResumeStep(id, env) => if Waiting(b, id) && b.futures[b.calls[id].serial].Set? then Resume(b, id, env).0 else b
    case ExpireStep(id) => if Waiting(b, id) then Expire(b, id).0 else b
    case CancelStep(id) => if id in b.calls then Cancel(b, id) else b
    case ResultStep(m, addressee, routed) => AcceptResult(b, m, addressee, routed).0
    case StatusStep(s, addressee, now) => AcceptStatus(b, s, addressee, now).0
    case RetireStep(targets, hit) => Retire(b, targets, hit)
    case BindStep(client) => Bind(b, client)
  }

  function Run(b: Bridge, steps: seq<Step>): Bridge
    decreases |steps|
  {
    if steps == [] then b else Run(Apply(b, steps[0]), steps[1..])
  }

  // ---- What holds in every reachable state ----

  ghost predicate Retained(e: Entry) { !IsRead(e.fingerprint.operation) && e.answer == Redact(e.answer) }

  ghost predicate OutcomesOk(es: seq<Entry>) {
    |es| <= MAX_OUTCOMES && Distinct(es) && forall e :: e in es ==> Retained(e)
  }

  ghost predicate PendingBelow(pending: map<RequestId, Pending>, next: Serial) {
    forall r :: r in pending ==> pending[r].serial < next
  }

  ghost predicate CallsBelow(calls: map<CallId, Call>, next: Serial) {
    forall id :: id in calls ==> calls[id].serial < next
  }

  // A call waiting on the current request of its id asked for the same thing.
  ghost predicate Matching(pending: map<RequestId, Pending>, calls: map<CallId, Call>) {
    forall id :: id in calls && calls[id].request in pending && pending[calls[id].request].serial == calls[id].serial ==>
      calls[id].fingerprint == pending[calls[id].request].fingerprint
  }

  ghost predicate PendingOk(b: Bridge) {
    && |b.pending| <= MAX_PENDING
    && PendingBelow(b.pending, b.nextSerial) && CallsBelow(b.calls, b.nextSerial) && Matching(b.pending, b.calls)
  }

  predicate Remembered(b: Bridge, r: RequestId) {
    Has(b.outcomes, r) || (r in b.pending && !IsRead(b.pending[r].fingerprint.operation))
  }

  // Every submission of the mutation but the remembered one is paid for by a loss.
  ghost predicate Accounted(b: Bridge, r: RequestId) {
    multiset(b.submitted)[r] <= multiset(b.forgotten)[r] + if Remembered(b, r) then 1 else 0
  }

  ghost predicate Inv(b: Bridge) {
    OutcomesOk(b.outcomes) && PendingOk(b) && forall r :: Accounted(b, r)
  }

  lemma HasMeans(es: seq<Entry>, r: RequestId)
    ensures Has(es, r) <==> exists e :: e in es && e.request == r
  {
    if e :| e in es && e.request == r {
      var i :| 0 <= i < |es| && es[i] == e;
    }
  }

  lemma IdsMeans(es: seq<Entry>, r: RequestId)
    ensures r in Ids(es) <==> exists e :: e in es && e.request == r
  {
    if e :| e in es && e.request == r {
      var i :| 0 <= i < |es| && es[i] == e;
      assert Ids(es)[i] == r;
    }
  }

  // What was cached stays cached, or its loss is recorded.
  lemma RecordKeeps(b: Bridge, call: Call, answer: Answer, r: RequestId)
    ensures var b' := Record(b, call, answer);
      && (!IsRead(call.fingerprint.operation) ==> Has(b'.outcomes, call.request))
      && multiset(b'.forgotten)[r] >= multiset(b.forgotten)[r]
      && (Has(b.outcomes, r) ==> Has(b'.outcomes, r) || multiset(b'.forgotten)[r] > multiset(b.forgotten)[r])
  {
    if !IsRead(call.fingerprint.operation) {
      var b' := Record(b, call, answer);
      var added := Entry(call.request, call.fingerprint, Redact(answer), call.client);
      var es := Without(b.outcomes, call.request) + [added];
      assert b'.outcomes[|b'.outcomes| - 1] == added;
      HasMeans(b'.outcomes, call.request);
      assert multiset(b'.forgotten) == multiset(b.forgotten) + multiset(Ids(es[..Excess(es, MAX_OUTCOMES)]));
      if Has(b.outcomes, r) && r != call.request {
        var e := b.outcomes[Position(b.outcomes, r)];
        assert e in es && es == es[..Excess(es, MAX_OUTCOMES)] + es[Excess(es, MAX_OUTCOMES)..];
        HasMeans(b'.outcomes, r);
        IdsMeans(es[..Excess(es, MAX_OUTCOMES)], r);
      }
    }
  }

  lemma RecordOutcomesOk(b: Bridge, call: Call, answer: Answer)
    requires OutcomesOk(b.outcomes)
    ensures OutcomesOk(Record(b, call, answer).outcomes)
  {
    if !IsRead(call.fingerprint.operation) {
      var es := Without(b.outcomes, call.request) + [Entry(call.request, call.fingerprint, Redact(answer), call.client)];
      assert Distinct(es);
      assert forall e :: e in es ==> Retained(e);
    }
  }

  lemma FinishAccounted(b: Bridge, id: CallId, answer: Answer, r: RequestId)
    requires id in b.calls && PendingOk(b) && Accounted(b, r)
    ensures Accounted(Finish(b, id, answer), r)
  {
    RecordKeeps(b, b.calls[id], answer, r);
  }

  lemma FinishInv(b: Bridge, id: CallId, answer: Answer)
    requires id in b.calls && Inv(b)
    ensures Inv(Finish(b, id, answer))
  {
    RecordOutcomesOk(b, b.calls[id], answer);
    forall r ensures Accounted(Finish(b, id, answer), r) {
      FinishAccounted(b, id, answer, r);
    }
    PendingShrinks(b.pending, b.calls[id].request);
  }

  lemma PendingShrinks(m: map<RequestId, Pending>, r: RequestId)
    ensures |m - {r}| <= |m|
  {
    assert (m - {r}).Keys <= m.Keys;
    Sets.SubsetSize((m - {r}).Keys, m.Keys);
  }

  lemma ExecuteInv(b: Bridge, id: CallId, r: RequestId, fp: Fingerprint, env: Surroundings)
    requires Inv(b) && id !in b.calls
    ensures Inv(Execute(b, id, r, fp, env).0)
  {
    var (b', reply) := Execute(b, id, r, fp, env);
    match reply {
      case Refused(_) =>
      case Joined => JoinedInv(b, id, r, fp, env);
      case Replayed(_) => ReplayedInv(b, id, r, fp, env);
      case Submitted => SubmittedInv(b, id, r, fp, env);
    }
  }

  lemma JoinedInv(b: Bridge, id: CallId, r: RequestId, fp: Fingerprint, env: Surroundings)
    requires Inv(b) && id !in b.calls && Execute(b, id, r, fp, env).1.Joined?
    ensures Inv(Execute(b, id, r, fp, env).0)
  {
    var b' := Execute(b, id, r, fp, env).0;
    assert forall k :: Accounted(b, k) ==> Accounted(b', k);
  }

  lemma ReplayedInv(b: Bridge, id: CallId, r: RequestId, fp: Fingerprint, env: Surroundings)
    requires Inv(b) && Execute(b, id, r, fp, env).1.Replayed?
    ensures Inv(Execute(b, id, r, fp, env).0)
  {
    var b' := Execute(b, id, r, fp, env).0;
    var e := b.outcomes[Position(b.outcomes, r)];
    MovedToEnd(b.outcomes, r);
    forall k ensures Accounted(b', k) {
      assert Accounted(b, k);
      HasMeans(b.outcomes, k);
      HasMeans(b'.outcomes, k);
    }
  }

  // move_to_end permutes the cache.
  lemma MovedToEnd(es: seq<Entry>, r: RequestId)
    requires OutcomesOk(es) && Has(es, r)
    ensures var es' := Without(es, r) + [es[Position(es, r)]];
      OutcomesOk(es') && forall e :: e in es <==> e in es'
  {
    var e := es[Position(es, r)];
    WithoutOne(es, Position(es, r));
    forall x | x in es ensures x in Without(es, r) + [e] {
      if x.request == r {
        var i :| 0 <= i < |es| && es[i] == x;
        assert i == Position(es, r);
      }
    }
  }

  lemma {:induction false} WithoutOne(es: seq<Entry>, i: nat)
    requires Distinct(es) && i < |es|
    ensures |Without(es, es[i].request)| == |es| - 1
  {
    if i == 0 {
      WithoutNone(es[1..], es[0].request);
    } else {
      WithoutOne(es[1..], i - 1);
    }
  }

  lemma {:induction false} WithoutNone(es: seq<Entry>, r: RequestId)
    requires forall i :: 0 <= i < |es| ==> es[i].request != r
    ensures |Without(es, r)| == |es|
  {
    if es != [] {
      WithoutNone(es[1..], r);
    }
  }

  lemma SubmitAccounted(b: Bridge, id: CallId, r: RequestId, fp: Fingerprint, now: int, k: RequestId)
    requires Accounted(b, k) && !Has(b.outcomes, r) && r !in b.pending
    ensures Accounted(Submit(b, id, r, fp, now), k)
  {
    assert multiset(b.submitted + [r]) == multiset(b.submitted) + multiset([r]);
  }

  lemma SubmitMatching(pending: map<RequestId, Pending>, calls: map<CallId, Call>, next: Serial, r: RequestId, p: Pending, id: CallId, c: Call)
    requires Matching(pending, calls) && CallsBelow(calls, next) && p.serial == next
    requires c.request == r && c.fingerprint == p.fingerprint
    ensures Matching(pending[r := p], calls[id := c])
  {
  }

  lemma SubmitBelow(pending: map<RequestId, Pending>, calls: map<CallId, Call>, next: Serial, r: RequestId, p: Pending, id: CallId, c: Call)
    requires PendingBelow(pending, next) && CallsBelow(calls, next) && p.serial == c.serial == next
    ensures PendingBelow(pending[r := p], next + 1) && CallsBelow(calls[id := c], next + 1)
  {
  }

  lemma SubmitSize(pending: map<RequestId, Pending>, r: RequestId, p: Pending)
    requires r !in pending
    ensures |pending[r := p]| == |pending| + 1
  {
    assert pending[r := p].Keys == pending.Keys + {r};
  }

  lemma SubmitPending(b: Bridge, id: CallId, r: RequestId, fp: Fingerprint, now: int)
    requires PendingOk(b) && r !in b.pending && |b.pending| < MAX_PENDING
    ensures PendingOk(Submit(b, id, r, fp, now))
  {
    var b' := Submit(b, id, r, fp, now);
    var p, c := b'.pending[r], b'.calls[id];
    SubmitSize(b.pending, r, p);
    SubmitBelow(b.pending, b.calls, b.nextSerial, r, p, id, c);
    SubmitMatching(b.pending, b.calls, b.nextSerial, r, p, id, c);
  }

  lemma SubmittedInv(b: Bridge, id: CallId, r: RequestId, fp: Fingerprint, env: Surroundings)
    requires Inv(b) && id !in b.calls && Execute(b, id, r, fp, env).1.Submitted?
    ensures Inv(Execute(b, id, r, fp, env).0)
  {
    SubmitPending(b, id, r, fp, env.now);
    forall k ensures Accounted(Execute(b, id, r, fp, env).0, k) {
      SubmitAccounted(b, id, r, fp, env.now, k);
    }
  }

  lemma CancelInv(b: Bridge, id: CallId)
    requires Inv(b) && id in b.calls
    ensures Inv(Cancel(b, id))
  {
    var call := b.calls[id];
    PendingShrinks(b.pending, call.request);
    forall k ensures Accounted(Cancel(b, id), k) {
      assert Accounted(b, k);
      assert multiset(b.forgotten + [call.request]) == multiset(b.forgotten) + multiset([call.request]);
    }
  }

  lemma BindInv(b: Bridge, client: Option<Client>)
    requires Inv(b)
    ensures Inv(Bind(b, client))
  {
    if client != b.client {
      var b' := Bind(b, client);
      forall k ensures Accounted(b', k) {
        assert Accounted(b, k);
        assert multiset(b'.forgotten) == multiset(b.forgotten) + multiset(Ids(b.outcomes));
        HasMeans(b.outcomes, k);
        IdsMeans(b.outcomes, k);
      }
    }
  }

  // Steps that leave the pending requests, the cache, the calls and both histories alone.
  lemma QuietInv(b: Bridge, b': Bridge)
    requires Inv(b) && (b'.pending, b'.outcomes, b'.nextSerial) == (b.pending, b.outcomes, b.nextSerial)
    requires (b'.calls, b'.submitted, b'.forgotten) == (b.calls, b.submitted, b.forgotten)
    ensures Inv(b')
  {
    forall k ensures Accounted(b', k) {
      assert Accounted(b, k);
    }
  }

  lemma SendInv(b: Bridge, id: CallId)
    requires Inv(b) && id in b.calls
    ensures Inv(SendReturned(b, id, None))
  {
    var b' := SendReturned(b, id, None);
    forall k ensures Accounted(b', k) {
      assert Accounted(b, k);
    }
  }

  lemma ApplyInv(b: Bridge, step: Step)
    requires Inv(b)
    ensures Inv(Apply(b, step))
  {
    match step
    case ExecuteStep(id, r, fp, env) => if id !in b.calls { ExecuteInv(b, id, r, fp, env); }
    case SendStep(id, failure) =>
      if id in b.calls && b.calls[id].sending {
        if failure.Some? {
          FinishInv(b, id, Failed(failure.value));
        } else {
          SendInv(b, id);
        }
      }
    case ResumeStep(id, env) =>
      if Waiting(b, id) && b.futures[b.calls[id].serial].Set? {
        FinishInv(b, id, Resume(b, id, env).1);
      }
    case ExpireStep(id) => if Waiting(b, id) { FinishInv(b, id, Failed(TimedOut)); }
    case CancelStep(id) => if id in b.calls { CancelInv(b, id); }
    case ResultStep(m, addressee, routed) => QuietInv(b, Apply(b, step));
    case StatusStep(s, addressee, now) => QuietInv(b, Apply(b, step));
    case RetireStep(targets, hit) => QuietInv(b, Apply(b, step));
    case BindStep(client) => BindInv(b, client);
  }

  /**
    Over every run: at most 128 requests pending and 256 outcomes cached, no outcome of a read and no
    private field ever cached, and each mutation submitted at most once more than its entry was lost.
  */
  lemma {:induction false} RunInv(b: Bridge, steps: seq<Step>)
    requires Inv(b)
    ensures var b' := Run(b, steps); Inv(b') && |b'.pending| <= 128 && |b'.outcomes| <= 256
    decreases |steps|
  {
    if steps != [] {
      ApplyInv(b, steps[0]);
      RunInv(Apply(b, steps[0]), steps[1..]);
    }
  }

  // ---- A mutation is submitted at most once ----

  // Steps of calls that are not cancelled, under one client, whose mutations all lie in `ids`.
  predicate Uninterrupted(steps: seq<Step>, ids: set<RequestId>) {
    forall i :: 0 <= i < |steps| ==>
      && !steps[i].CancelStep? && !steps[i].BindStep?
      && (steps[i].ExecuteStep? && !IsRead(steps[i].fingerprint.operation) ==> steps[i].request in ids)
  }

  ghost predicate Within(b: Bridge, ids: set<RequestId>) {
    && b.forgotten == []
    && (forall e :: e in b.outcomes ==> e.request in ids)
    && (forall id :: id in b.calls && !IsRead(b.calls[id].fingerprint.operation) ==> b.calls[id].request in ids)
  }

  lemma OutcomesFit(es: seq<Entry>, ids: set<RequestId>)
    requires Distinct(es) && forall e :: e in es ==> e.request in ids
    ensures |es| <= |ids|
  {
    Sets.DistinctFit(Ids(es), ids);
  }

  lemma FinishWithin(b: Bridge, id: CallId, answer: Answer, ids: set<RequestId>)
    requires id in b.calls && Inv(b) && Within(b, ids) && |ids| <= MAX_OUTCOMES
    ensures Within(Finish(b, id, answer), ids)
  {
    var call := b.calls[id];
    if !IsRead(call.fingerprint.operation) {
      var es := Without(b.outcomes, call.request) + [Entry(call.request, call.fingerprint, Redact(answer), call.client)];
      OutcomesFit(es, ids);
      assert es[0..] == es && Ids(es[..0]) == [];
    }
  }

  lemma ApplyWithin(b: Bridge, step: Step, ids: set<RequestId>)
    requires Inv(b) && Within(b, ids) && |ids| <= MAX_OUTCOMES && Uninterrupted([step], ids)
    ensures Within(Apply(b, step), ids)
  {
    assert [step][0] == step;
    match step
    case ExecuteStep(id, r, fp, env) =>
    case SendStep(id, failure) =>
      if id in b.calls && b.calls[id].sending && failure.Some? {
        FinishWithin(b, id, Failed(failure.value), ids);
      }
    case ResumeStep(id, env) =>
      if Waiting(b, id) && b.futures[b.calls[id].serial].Set? {
        FinishWithin(b, id, Resume(b, id, env).1, ids);
      }
    case ExpireStep(id) => if Waiting(b, id) { FinishWithin(b, id, Failed(TimedOut), ids); }
    case ResultStep(m, addressee, routed) =>
    case StatusStep(s, addressee, now) =>
    case RetireStep(targets, hit) =>
  }

  lemma {:induction false} RunWithin(b: Bridge, steps: seq<Step>, ids: set<RequestId>)
    requires Inv(b) && Within(b, ids) && |ids| <= MAX_OUTCOMES && Uninterrupted(steps, ids)
    ensures Inv(Run(b, steps)) && Within(Run(b, steps), ids)
    decreases |steps|
  {
    if steps != [] {
      ApplyInv(b, steps[0]);
      ApplyWithin(b, steps[0], ids);
      RunWithin(Apply(b, steps[0]), steps[1..], ids);
    }
  }

  /**
    While one client stays bound and no call is cancelled, no mutation reaches the transport twice,
    over every run of joins, timeouts, uncertain sends and late results: in general for as long as its
    entry is not evicted, and outright if no more than 256 mutations are asked for.
  */
  lemma SubmittedAtMostOnce(client: Option<Client>, steps: seq<Step>, ids: set<RequestId>, r: RequestId)
    ensures var b := Run(Initial(client), steps);
      && (r !in b.forgotten ==> multiset(b.submitted)[r] <= 1)
      && (Uninterrupted(steps, ids) && |ids| <= 256 ==> multiset(b.submitted)[r] <= 1)
  {
    RunInv(Initial(client), steps);
    var b := Run(Initial(client), steps);
    assert Accounted(b, r);
    if Uninterrupted(steps, ids) && |ids| <= MAX_OUTCOMES {
      RunWithin(Initial(client), steps, ids);
    }
  }

  /** Cancellation is a real exception: the cancelled call's request can be submitted again. */
  lemma CancelledIsSubmittedAgain(b: Bridge, id: CallId, again: CallId, env: Surroundings)
    requires Inv(b) && id in b.calls && IsCurrent(b, b.calls[id]) && !Has(b.outcomes, b.calls[id].request)
    requires Guard(b, b.calls[id].request, b.calls[id].fingerprint.operation, env).None? && !env.tooLarge
    ensures Execute(Cancel(b, id), again, b.calls[id].request, b.calls[id].fingerprint, env).1 == Submitted
  {
    var call := b.calls[id];
    assert call.request in b.pending;
    assert (b.pending - {call.request}).Keys == b.pending.Keys - {call.request};
  }

  // ---- One answer per request ----

  ghost predicate FuturesOk(b: Bridge) { forall s :: s in b.futures ==> s < b.nextSerial }

  // `to` has every future of `from`, and those already set unchanged.
  ghost predicate Extends(from: map<Serial, Future>, to: map<Serial, Future>) {
    forall s :: s in from ==> s in to && (from[s].Set? ==> to[s] == from[s])
  }

  lemma FailPendingFutures(b: Bridge, hit: set<RequestId>, code: Code)
    ensures FailPending(b, hit, code).futures.Keys == b.futures.Keys && Extends(b.futures, FailPending(b, hit, code).futures)
  {
  }

  lemma ExecuteFutures(b: Bridge, id: CallId, r: RequestId, fp: Fingerprint, env: Surroundings)
    requires FuturesOk(b)
    ensures var b' := Execute(b, id, r, fp, env).0; FuturesOk(b') && Extends(b.futures, b'.futures)
  {
    assert Extends(b.futures, b.futures[b.nextSerial := Unset]);
  }

  lemma FinishFutures(b: Bridge, id: CallId, answer: Answer)
    requires id in b.calls
    ensures var b' := Finish(b, id, answer); b'.futures == b.futures && b'.nextSerial == b.nextSerial
  {
  }

  lemma ApplyFuture(b: Bridge, step: Step)
    requires FuturesOk(b)
    ensures FuturesOk(Apply(b, step)) && Extends(b.futures, Apply(b, step).futures)
  {
    match step
    case ExecuteStep(id, r, fp, env) => ExecuteFutures(b, id, r, fp, env);
    case SendStep(id, failure) => if id in b.calls && failure.Some? { FinishFutures(b, id, Failed(failure.value)); }
    case ResumeStep(id, env) =>
      if Waiting(b, id) && b.futures[b.calls[id].serial].Set? { FinishFutures(b, id, Resume(b, id, env).1); }
    case ExpireStep(id) => if id in b.calls { FinishFutures(b, id, Failed(TimedOut)); }
    case CancelStep(id) =>
    case ResultStep(m, addressee, routed) =>
    case StatusStep(s, addressee, now) =>
      FailPendingFutures(b.(statuses := PutStatus(b.statuses, s)), Covered(b, s), AuthorizationRequired);
    case RetireStep(targets, hit) => FailPendingFutures(b.(statuses := Unrouted(b.statuses, targets)), hit, OwnerChanged);
    case BindStep(client) =>
      FailPendingFutures(b.(statuses := [], outcomes := [], forgotten := b.forgotten + Ids(b.outcomes)), b.pending.Keys, OwnerChanged);
  }

  /** A request is answered once: everyone who joined it comes back with that answer or a failure, whenever it resumes. */
  lemma {:induction false} AnsweredOnce(b: Bridge, steps: seq<Step>, s: Serial, id: CallId, env: Surroundings)
    requires FuturesOk(b) && s in b.futures && b.futures[s].Set?
    ensures var b' := Run(b, steps);
      && FuturesOk(b') && s in b'.futures && b'.futures[s] == b.futures[s]
      && (Waiting(b', id) && b'.calls[id].serial == s ==>
            Resume(b', id, env).1 == b.futures[s].answer || Resume(b', id, env).1.Failed?)
    decreases |steps|
  {
    if steps != [] {
      ApplyFuture(b, steps[0]);
      AnsweredOnce(Apply(b, steps[0]), steps[1..], s, id, env);
    }
  }

  /**
    Withdrawal. Once an accepted status withdraws the capability of a request still unanswered, every
    caller that ever resumes on that request fails, even if a later status grants it again.
  */
  lemma WithdrawnRequestFails(b: Bridge, s: Status, addressee: Text, now: int, r: RequestId, steps: seq<Step>, id: CallId, env: Surroundings)
    requires FuturesOk(b) && r in b.pending && b.pending[r].serial in b.futures && b.futures[b.pending[r].serial].Unset?
    requires AcceptStatus(b, s, addressee, now).1 && r.coordinates.target == s.target
    requires !s.available || b.pending[r].fingerprint.operation.capability !in s.enabled
    ensures var b' := Run(AcceptStatus(b, s, addressee, now).0, steps);
      Waiting(b', id) && b'.calls[id].serial == b.pending[r].serial ==>
        b'.futures[b'.calls[id].serial].Set? && Resume(b', id, env).1 == Failed(AuthorizationRequired)
  {
    ApplyFuture(b, StatusStep(s, addressee, now));
    var b1 := AcceptStatus(b, s, addressee, now).0;
    assert b1.futures[b.pending[r].serial] == Set(Failed(AuthorizationRequired));
    AnsweredOnce(b1, steps, b.pending[r].serial, id, env);
  }

  // ---- Whose outcome is replayed ----

  ghost predicate OwnerSafe(b: Bridge) {
    forall e :: e in b.outcomes && e.answer.FromPhone? ==> b.client.Some? && e.owner == b.client.value.id
  }

  lemma RecordEntries(b: Bridge, call: Call, answer: Answer, e: Entry)
    requires e in Record(b, call, answer).outcomes
    ensures e in b.outcomes || e == Entry(call.request, call.fingerprint, Redact(answer), call.client)
  {
    if !IsRead(call.fingerprint.operation) {
      var es := Without(b.outcomes, call.request) + [Entry(call.request, call.fingerprint, Redact(answer), call.client)];
      assert e in es;
    }
  }

  lemma FinishOwnerSafe(b: Bridge, id: CallId, answer: Answer)
    requires OwnerSafe(b) && id in b.calls
    requires answer.FromPhone? ==> b.client.Some? && b.client.value.id == b.calls[id].client
    ensures OwnerSafe(Finish(b, id, answer))
  {
    var call := b.calls[id];
    forall e | e in Record(b, call, answer).outcomes && e.answer.FromPhone?
      ensures b.client.Some? && e.owner == b.client.value.id
    {
      RecordEntries(b, call, answer, e);
    }
  }

  lemma ApplyOwnerSafe(b: Bridge, step: Step)
    requires OwnerSafe(b)
    ensures OwnerSafe(Apply(b, step))
  {
    match step
    case ExecuteStep(id, r, fp, env) =>
    case SendStep(id, failure) =>
      if id in b.calls && b.calls[id].sending && failure.Some? {
        FinishOwnerSafe(b, id, Failed(failure.value));
      }
    case ResumeStep(id, env) =>
      if Waiting(b, id) && b.futures[b.calls[id].serial].Set? {
        FinishOwnerSafe(b, id, Resume(b, id, env).1);
      }
    case ExpireStep(id) => if Waiting(b, id) { FinishOwnerSafe(b, id, Failed(TimedOut)); }
    case CancelStep(id) =>
    case ResultStep(m, addressee, routed) =>
    case StatusStep(s, addressee, now) =>
    case RetireStep(targets, hit) =>
    case BindStep(client) =>
  }

  /** Over every run with any rebinding, a phone's answer is only ever replayed to the client it was submitted under. */
  lemma {:induction false} ReplayedToItsOwner(b: Bridge, steps: seq<Step>, id: CallId, r: RequestId, fp: Fingerprint, env: Surroundings)
    requires OwnerSafe(b)
    ensures var b' := Run(b, steps);
      && OwnerSafe(b')
      && (Execute(b', id, r, fp, env).1.Replayed? && Execute(b', id, r, fp, env).1.answer.FromPhone? ==>
            exists e :: e in b'.outcomes && e.request == r && b'.client.Some? && e.owner == b'.client.value.id)
    decreases |steps|
  {
    if steps != [] {
      ApplyOwnerSafe(b, steps[0]);
      ReplayedToItsOwner(Apply(b, steps[0]), steps[1..], id, r, fp, env);
    } else if Execute(b, id, r, fp, env).1.Replayed? {
      assert b.outcomes[Position(b.outcomes, r)] in b.outcomes;
    }
  }

  // ---- Whose failure is replayed ----

  // A client asks for something and gets an outcome recorded by a call made under another client.
  ghost predicate ReplaysForeign(b: Bridge, r: RequestId, fp: Fingerprint, env: Surroundings) {
    && Execute(b, 0, r, fp, env).1.Replayed?
    && b.outcomes[Position(b.outcomes, r)].owner != b.client.value.id
  }

  predicate StaysBound(steps: seq<Step>) { forall i :: 0 <= i < |steps| ==> !steps[i].BindStep? }

  ghost predicate SomeContinuationReplaysForeign(b: Bridge) {
    exists steps: seq<Step>, r, fp, env :: StaysBound(steps) && ReplaysForeign(Run(b, steps), r, fp, env)
  }

  /** Whatever is replayed to another client than it was recorded under is a failure. */
  lemma ForeignReplayIsFailure(client: Option<Client>, steps: seq<Step>, r: RequestId, fp: Fingerprint, env: Surroundings)
    requires ReplaysForeign(Run(Initial(client), steps), r, fp, env)
    ensures Execute(Run(Initial(client), steps), 0, r, fp, env).1.answer.Failed?
  {
    ReplayedToItsOwner(Initial(client), steps, 0, r, fp, env);
    var b := Run(Initial(client), steps);
    assert b.outcomes[Position(b.outcomes, r)] in b.outcomes;
  }

  // A mutation of one client, addressed to the host of the next one.
  predicate Outlives(call: Call, next: Client) {
    !IsRead(call.fingerprint.operation) && call.request.coordinates.target.hostId == next.hostId && call.client != next.id
  }

  // Such a call has not returned yet: sending, waiting, or answered and not resumed.
  ghost predicate Lingers(b: Bridge, next: Client) { exists id :: id in b.calls && Outlives(b.calls[id], next) }

  // Every pending request has a call that will end it, and every call can end.
  ghost predicate Manned(b: Bridge) {
    forall r :: r in b.pending ==> exists id :: id in b.calls && IsCurrent(b, b.calls[id]) && b.calls[id].request == r
  }

  ghost predicate CallsOk(b: Bridge) {
    && (forall s :: s in b.futures ==> s < b.nextSerial)
    && (forall id :: id in b.calls ==>
          && b.calls[id].serial in b.futures
          && b.calls[id].request.toolCallId != [] && b.calls[id].request.coordinates.target.hostId != [])
    && (forall r :: r in b.pending ==> b.pending[r].serial in b.futures)
  }

  lemma FinishManned(b: Bridge, id: CallId, answer: Answer)
    requires Manned(b) && CallsOk(b) && id in b.calls
    ensures Manned(Finish(b, id, answer)) && CallsOk(Finish(b, id, answer))
  {
    hide Without, Redact, IsRead, Ids;
    var b' := Finish(b, id, answer);
    forall r | r in b'.pending ensures exists id' :: id' in b'.calls && IsCurrent(b', b'.calls[id']) && b'.calls[id'].request == r {
      var id' :| id' in b.calls && IsCurrent(b, b.calls[id']) && b.calls[id'].request == r;
      assert id' != id && id' in b'.calls && IsCurrent(b', b'.calls[id']);
    }
  }

  lemma CancelManned(b: Bridge, id: CallId)
    requires Manned(b) && CallsOk(b) && id in b.calls
    ensures Manned(Cancel(b, id)) && CallsOk(Cancel(b, id))
  {
    var b' := Cancel(b, id);
    forall r | r in b'.pending ensures exists id' :: id' in b'.calls && IsCurrent(b', b'.calls[id']) && b'.calls[id'].request == r {
      var id' :| id' in b.calls && IsCurrent(b, b.calls[id']) && b.calls[id'].request == r;
      assert id' != id && id' in b'.calls && IsCurrent(b', b'.calls[id']);
    }
  }

  lemma SentManned(b: Bridge, id: CallId)
    requires Manned(b) && CallsOk(b) && id in b.calls
    ensures Manned(SendReturned(b, id, None)) && CallsOk(SendReturned(b, id, None))
  {
    var b' := SendReturned(b, id, None);
    forall r | r in b'.pending ensures exists id' :: id' in b'.calls && IsCurrent(b', b'.calls[id']) && b'.calls[id'].request == r {
      var id' :| id' in b.calls && IsCurrent(b, b.calls[id']) && b.calls[id'].request == r;
      assert id' in b'.calls && IsCurrent(b', b'.calls[id']);
    }
  }

  lemma SubmitManned(b: Bridge, id: CallId, r: RequestId, fp: Fingerprint, now: int)
    requires Manned(b) && CallsOk(b) && id !in b.calls && r !in b.pending
    requires r.toolCallId != [] && r.coordinates.target.hostId != []
    ensures Manned(Submit(b, id, r, fp, now)) && CallsOk(Submit(b, id, r, fp, now))
  {
    var b' := Submit(b, id, r, fp, now);
    forall q | q in b'.pending ensures exists id' :: id' in b'.calls && IsCurrent(b', b'.calls[id']) && b'.calls[id'].request == q {
      if q == r {
        assert id in b'.calls && IsCurrent(b', b'.calls[id]);
      } else {
        var id' :| id' in b.calls && IsCurrent(b, b.calls[id']) && b.calls[id'].request == q;
        assert id' in b'.calls && IsCurrent(b', b'.calls[id']);
      }
    }
  }

  lemma JoinManned(b: Bridge, id: CallId, call: Call)
    requires Manned(b) && CallsOk(b) && id !in b.calls && IsCurrent(b, call)
    requires call.request.toolCallId != [] && call.request.coordinates.target.hostId != []
    ensures Manned(b.(calls := b.calls[id := call])) && CallsOk(b.(calls := b.calls[id := call]))
  {
    var b' := b.(calls := b.calls[id := call]);
    forall q | q in b'.pending ensures exists id' :: id' in b'.calls && IsCurrent(b', b'.calls[id']) && b'.calls[id'].request == q {
      var id' :| id' in b.calls && IsCurrent(b, b.calls[id']) && b.calls[id'].request == q;
      assert id' in b'.calls && IsCurrent(b', b'.calls[id']);
    }
  }

  lemma ExecuteManned(b: Bridge, id: CallId, r: RequestId, fp: Fingerprint, env: Surroundings)
    requires Manned(b) && CallsOk(b) && id !in b.calls
    ensures Manned(Execute(b, id, r, fp, env).0) && CallsOk(Execute(b, id, r, fp, env).0)
  {
    hide Without, Position, Allowed, Submit, Manned, CallsOk;
    if Guard(b, r, fp.operation, env).None? {
      if r in b.pending {
        JoinManned(b, id, Call(r, b.pending[r].serial, fp, b.client.value.id, false));
      } else {
        SubmitManned(b, id, r, fp, env.now);
        QuietManned(b, b.(outcomes := Execute(b, id, r, fp, env).0.outcomes));
      }
    }
  }

  // Steps that leave the pending requests and the calls alone, and drop no future.
  lemma QuietManned(b: Bridge, b': Bridge)
    requires Manned(b) && CallsOk(b) && (b'.pending, b'.calls, b'.nextSerial) == (b.pending, b.calls, b.nextSerial)
    requires b'.futures.Keys == b.futures.Keys
    ensures Manned(b') && CallsOk(b')
  {
    forall r | r in b'.pending ensures exists id :: id in b'.calls && IsCurrent(b', b'.calls[id]) && b'.calls[id].request == r {
      var id :| id in b.calls && IsCurrent(b, b.calls[id]) && b.calls[id].request == r;
      assert IsCurrent(b', b'.calls[id]);
    }
  }

  lemma ApplyManned(b: Bridge, step: Step)
    requires Manned(b) && CallsOk(b)
    ensures Manned(Apply(b, step)) && CallsOk(Apply(b, step))
  {
    hide Manned, CallsOk, Finish, Execute, Cancel, Record;
    match step
    case ExecuteStep(id, r, fp, env) => if id !in b.calls { ExecuteManned(b, id, r, fp, env); }
    case SendStep(id, failure) =>
      if id in b.calls && b.calls[id].sending {
        if failure.Some? {
          FinishManned(b, id, Failed(failure.value));
        } else {
          SentManned(b, id);
        }
      }
    case ResumeStep(id, env) =>
      if Waiting(b, id) && b.futures[b.calls[id].serial].Set? { FinishManned(b, id, Resume(b, id, env).1); }
    case ExpireStep(id) => if Waiting(b, id) { FinishManned(b, id, Failed(TimedOut)); }
    case CancelStep(id) => if id in b.calls { CancelManned(b, id); }
    case ResultStep(m, addressee, routed) => QuietManned(b, Apply(b, step));
    case StatusStep(s, addressee, now) => QuietManned(b, Apply(b, step));
    case RetireStep(targets, hit) => QuietManned(b, Apply(b, step));
    case BindStep(client) => QuietManned(b, Apply(b, step));
  }

  lemma {:induction false} RunManned(b: Bridge, steps: seq<Step>)
    requires Manned(b) && CallsOk(b)
    ensures Manned(Run(b, steps)) && CallsOk(Run(b, steps))
    decreases |steps|
  {
    if steps != [] {
      ApplyManned(b, steps[0]);
      RunManned(Apply(b, steps[0]), steps[1..]);
    }
  }

  // No call of another client is left whose outcome this client could be told.
  ghost predicate OwnOnly(b: Bridge, next: Client) {
    && b.client == Some(next)
    && (forall e :: e in b.outcomes && e.request.coordinates.target.hostId == next.hostId ==> e.owner == next.id)
    && (forall id :: id in b.calls ==> !Outlives(b.calls[id], next))
  }

  lemma FinishOwnOnly(b: Bridge, id: CallId, answer: Answer, next: Client)
    requires OwnOnly(b, next) && id in b.calls
    ensures OwnOnly(Finish(b, id, answer), next)
  {
    var call := b.calls[id];
    var b' := Finish(b, id, answer);
    forall e | e in b'.outcomes && e.request.coordinates.target.hostId == next.hostId ensures e.owner == next.id {
      RecordEntries(b, call, answer, e);
      if IsRead(call.fingerprint.operation) {
        assert e in b.outcomes;
      }
    }
  }

  lemma ApplyOwnOnly(b: Bridge, step: Step, next: Client)
    requires OwnOnly(b, next) && !step.BindStep?
    ensures OwnOnly(Apply(b, step), next)
  {
    hide Finish, Record, FailPending;
    match step
    case ExecuteStep(id, r, fp, env) =>
    case SendStep(id, failure) =>
      if id in b.calls && b.calls[id].sending && failure.Some? { FinishOwnOnly(b, id, Failed(failure.value), next); }
    case ResumeStep(id, env) =>
      if Waiting(b, id) && b.futures[b.calls[id].serial].Set? { FinishOwnOnly(b, id, Resume(b, id, env).1, next); }
    case ExpireStep(id) => if Waiting(b, id) { FinishOwnOnly(b, id, Failed(TimedOut), next); }
    case CancelStep(id) =>
    case ResultStep(m, addressee, routed) =>
    case StatusStep(s, addressee, now) => FailingKeeps(b.(statuses := PutStatus(b.statuses, s)), Covered(b, s), AuthorizationRequired);
    case RetireStep(targets, hit) => FailingKeeps(b.(statuses := Unrouted(b.statuses, targets)), hit, OwnerChanged);
  }

  lemma FailingKeeps(b: Bridge, hit: set<RequestId>, code: Code)
    ensures var b' := FailPending(b, hit, code);
      (b'.client, b'.outcomes, b'.calls, b'.pending, b'.statuses) == (b.client, b.outcomes, b.calls, b.pending, b.statuses)
  {
  }

  lemma {:induction false} OwnOnlyReplaysOwn(b: Bridge, steps: seq<Step>, next: Client, r: RequestId, fp: Fingerprint, env: Surroundings)
    requires OwnOnly(b, next) && StaysBound(steps)
    ensures !ReplaysForeign(Run(b, steps), r, fp, env)
    decreases |steps|
  {
    if steps != [] {
      ApplyOwnOnly(b, steps[0], next);
      OwnOnlyReplaysOwn(Apply(b, steps[0]), steps[1..], next, r, fp, env);
    } else if Execute(b, 0, r, fp, env).1.Replayed? {
      assert b.outcomes[Position(b.outcomes, r)] in b.outcomes;
    }
  }

  // How a call that has not returned comes to its end: its send raises, its answer resumes it, or it times out.
  function Ending(b: Bridge, id: CallId, env: Surroundings): Step
    requires id in b.calls && b.calls[id].serial in b.futures
  {
    if b.calls[id].sending then SendStep(id, Some(DeliveryUncertain))
    else if b.futures[b.calls[id].serial].Set? then ResumeStep(id, env)
    else ExpireStep(id)
  }

  function EndingAnswer(b: Bridge, id: CallId, env: Surroundings): Answer
    requires id in b.calls && b.calls[id].serial in b.futures
  {
    if b.calls[id].sending then Failed(DeliveryUncertain)
    else if b.futures[b.calls[id].serial].Set? then Awaited(b, b.calls[id], b.futures[b.calls[id].serial].answer, env)
    else Failed(TimedOut)
  }

  lemma EndingFinishes(b: Bridge, id: CallId, env: Surroundings)
    requires id in b.calls && b.calls[id].serial in b.futures
    ensures Apply(b, Ending(b, id, env)) == Finish(b, id, EndingAnswer(b, id, env))
  {
    hide Finish, Awaited;
  }

  // A mutation's outcome is what its request finds afterwards.
  lemma RecordedIsFound(b: Bridge, call: Call, answer: Answer)
    requires !IsRead(call.fingerprint.operation)
    ensures var es := Record(b, call, answer).outcomes;
      Has(es, call.request) && es[Position(es, call.request)] == Entry(call.request, call.fingerprint, Redact(answer), call.client)
  {
    var e := Entry(call.request, call.fingerprint, Redact(answer), call.client);
    var all := Without(b.outcomes, call.request) + [e];
    var es := Record(b, call, answer).outcomes;
    assert es[|es| - 1] == e && e in es;
    HasMeans(es, call.request);
    forall i | 0 <= i < |es| - 1 ensures es[i].request != call.request {
      assert es[i] == all[i + Excess(all, MAX_OUTCOMES)] && es[i] in Without(b.outcomes, call.request);
    }
  }

  // The status that allows this call again.
  function Allowing(call: Call): Status { Status(call.request.coordinates.target, 0, true, {call.fingerprint.operation.capability}) }

  const CALM := Surroundings(None, None, true, None, false, 0)

  lemma AllowedReplays(b: Bridge, call: Call, next: Client)
    requires b.client == Some(next) && b.statuses == [] && call.request !in b.pending && Outlives(call, next)
    requires call.request.toolCallId != [] && next.hostId != []
    requires Has(b.outcomes, call.request) && b.outcomes[Position(b.outcomes, call.request)].fingerprint == call.fingerprint
    requires b.outcomes[Position(b.outcomes, call.request)].owner == call.client
    ensures ReplaysForeign(Apply(b, StatusStep(Allowing(call), next.hostId, 0)), call.request, call.fingerprint, CALM)
  {
    var s := Allowing(call);
    var b1 := b.(statuses := PutStatus(b.statuses, s));
    FailingKeeps(b1, Covered(b, s), AuthorizationRequired);
    assert b1.statuses == [s];
    hide FailPending, Covered;
  }

  lemma RunStep(b: Bridge, step: Step, rest: seq<Step>)
    ensures Run(b, [step] + rest) == Run(Apply(b, step), rest)
  {
    assert ([step] + rest)[1..] == rest;
  }

  // The call ends last among those that wait for the same request, and the next client asks again.
  lemma LastToEnd(b: Bridge, id: CallId, next: Client)
    requires CallsOk(b) && b.client == Some(next) && b.statuses == [] && id in b.calls && Outlives(b.calls[id], next)
    requires b.calls[id].request in b.pending ==> IsCurrent(b, b.calls[id])
    ensures SomeContinuationReplaysForeign(b)
  {
    var call := b.calls[id];
    var ending := Ending(b, id, CALM);
    EndingFinishes(b, id, CALM);
    RecordedIsFound(b, call, EndingAnswer(b, id, CALM));
    var b1 := Apply(b, ending);
    FinishParts(b, id, EndingAnswer(b, id, CALM));
    hide Finish, Execute, Outlives, Ending, EndingAnswer, Record;
    var status := StatusStep(Allowing(call), next.hostId, 0);
    AllowedReplays(b1, call, next);
    RunStep(b, ending, [status] + []);
    RunStep(b1, status, []);
    var steps := [ending] + ([status] + []);
    assert StaysBound(steps) && ReplaysForeign(Run(b, steps), call.request, call.fingerprint, CALM);
  }

  lemma FinishParts(b: Bridge, id: CallId, answer: Answer)
    requires id in b.calls && !IsRead(b.calls[id].fingerprint.operation)
    ensures var b', call := Finish(b, id, answer), b.calls[id];
      && (b'.client, b'.statuses, b'.futures, b'.nextSerial) == (b.client, b.statuses, b.futures, b.nextSerial)
      && b'.outcomes == Record(b, call, answer).outcomes
      && b'.pending == (if IsCurrent(b, call) then b.pending - {call.request} else b.pending)
      && b'.calls == b.calls - {id}
  {
  }

  // The current call of a request ends; a call left over from an earlier submission of it does not.
  lemma CurrentEnds(b: Bridge, first: CallId, id: CallId)
    requires Manned(b) && CallsOk(b) && first in b.calls && id in b.calls && b.calls[first].request == b.calls[id].request
    requires IsCurrent(b, b.calls[first]) && !IsCurrent(b, b.calls[id])
    ensures var b1 := Apply(b, Ending(b, first, CALM));
      && CallsOk(b1) && (b1.client, b1.statuses) == (b.client, b.statuses)
      && id in b1.calls && b1.calls[id] == b.calls[id] && b.calls[id].request !in b1.pending
  {
    EndingFinishes(b, first, CALM);
    FinishManned(b, first, EndingAnswer(b, first, CALM));
    hide Ending, EndingAnswer, CallsOk, Manned;
  }

  lemma LingeringIsReplayed(b: Bridge, id: CallId, next: Client)
    requires Manned(b) && CallsOk(b) && b.client == Some(next) && b.statuses == []
    requires id in b.calls && Outlives(b.calls[id], next)
    ensures SomeContinuationReplaysForeign(b)
  {
    hide Outlives, IsCurrent, ReplaysForeign, Apply;
    var r := b.calls[id].request;
    if r in b.pending && !IsCurrent(b, b.calls[id]) {
      var first :| first in b.calls && IsCurrent(b, b.calls[first]) && b.calls[first].request == r;
      CurrentEnds(b, first, id);
      var ending := Ending(b, first, CALM);
      var b1 := Apply(b, ending);
      LastToEnd(b1, id, next);
      var steps, q, fp, env :| StaysBound(steps) && ReplaysForeign(Run(b1, steps), q, fp, env);
      RunStep(b, ending, steps);
      assert StaysBound([ending] + steps) && ReplaysForeign(Run(b, [ending] + steps), q, fp, env);
    } else {
      LastToEnd(b, id, next);
    }
  }

  /**
    A failure is not so confined. In every reachable state, whether the next client can be told an
    outcome of another one before it is replaced itself is decided at the rebinding: it can, in some
    continuation, if and only if some mutation call for its host, made under another client, has not
    returned yet - sending, waiting, or answered and not resumed.
  */
  lemma FailureOutlivesRebinding(client: Option<Client>, before: seq<Step>, next: Client)
    requires Run(Initial(client), before).client != Some(next)
    ensures var b := Run(Initial(client), before);
      SomeContinuationReplaysForeign(Bind(b, Some(next))) <==> Lingers(b, next)
  {
    var b := Run(Initial(client), before);
    RunManned(Initial(client), before);
    ApplyManned(b, BindStep(Some(next)));
    BindParts(b, next);
    var b1 := Bind(b, Some(next));
    hide Bind, Manned, CallsOk, Outlives;
    if Lingers(b, next) {
      var id :| id in b.calls && Outlives(b.calls[id], next);
      LingeringIsReplayed(b1, id, next);
    } else {
      assert OwnOnly(b1, next);
      forall steps: seq<Step>, r, fp, env | StaysBound(steps) ensures !ReplaysForeign(Run(b1, steps), r, fp, env) {
        OwnOnlyReplaysOwn(b1, steps, next, r, fp, env);
      }
    }
  }

  lemma BindParts(b: Bridge, next: Client)
    requires b.client != Some(next)
    ensures var b' := Bind(b, Some(next));
      b'.client == Some(next) && b'.statuses == [] && b'.outcomes == [] && b'.calls == b.calls
  {
    FailingKeeps(b.(statuses := [], outcomes := [], forgotten := b.forgotten + Ids(b.outcomes)), b.pending.Keys, OwnerChanged);
  }

  // One host, two clients in turn; a mutation is on its way when they change.
  const FIRST := Client(1, "h")
  const SECOND := Client(2, "h")
  const WRITE := Fingerprint(Operation("c", Create), "")
  const ASKED := RequestId(Coordinates(Target("d", "h", 1), "s", "a", "t"), "i")
  const GRANT := Status(Target("d", "h", 1), 0, true, {"c"})

  const SENT := Bridge(Some(FIRST), [GRANT], map[ASKED := Pending(0, 0, WRITE)], [], map[0 := Unset],
                       map[0 := Call(ASKED, 0, WRITE, 1, false)], 1, [ASKED], [])

  lemma FirstClientSends(rest: seq<Step>)
    ensures Run(Initial(Some(FIRST)), [StatusStep(GRANT, "h", 0)] + ([ExecuteStep(0, ASKED, WRITE, CALM)] + ([SendStep(0, None)] + rest)))
            == Run(SENT, rest)
  {
    var b0 := Initial(Some(FIRST));
    var b1 := Apply(b0, StatusStep(GRANT, "h", 0));
    assert b1 == b0.(statuses := [GRANT]);
    var b2 := Apply(b1, ExecuteStep(0, ASKED, WRITE, CALM));
    assert b2 == Bridge(Some(FIRST), [GRANT], map[ASKED := Pending(0, 0, WRITE)], [], map[0 := Unset],
                        map[0 := Call(ASKED, 0, WRITE, 1, true)], 1, [ASKED], []);
    assert Apply(b2, SendStep(0, None)) == SENT;
    RunStep(b0, StatusStep(GRANT, "h", 0), [ExecuteStep(0, ASKED, WRITE, CALM)] + ([SendStep(0, None)] + rest));
    RunStep(b1, ExecuteStep(0, ASKED, WRITE, CALM), [SendStep(0, None)] + rest);
    RunStep(b2, SendStep(0, None), rest);
  }

  const TOLD := Bridge(Some(SECOND), [GRANT], map[], [Entry(ASKED, WRITE, Failed(OwnerChanged), 1)],
                       map[0 := Set(Failed(OwnerChanged))], map[], 1, [ASKED], [])

  lemma SecondClientIsBound()
    ensures Run(SENT, [BindStep(Some(SECOND))] + ([ResumeStep(0, CALM)] + ([StatusStep(GRANT, "h", 0)] + []))) == TOLD
  {
    var b1 := Apply(SENT, BindStep(Some(SECOND)));
    assert ASKED in SENT.pending && SENT.pending[ASKED].serial == 0 && Ids([]) == [];
    assert b1 == SENT.(client := Some(SECOND), statuses := [], futures := map[0 := Set(Failed(OwnerChanged))]);
    var b2 := Apply(b1, ResumeStep(0, CALM));
    assert Without([], ASKED) + TOLD.outcomes == TOLD.outcomes;
    assert b2 == TOLD.(statuses := []);
    assert Apply(b2, StatusStep(GRANT, "h", 0)) == TOLD;
    RunStep(SENT, BindStep(Some(SECOND)), [ResumeStep(0, CALM)] + ([StatusStep(GRANT, "h", 0)] + []));
    RunStep(b1, ResumeStep(0, CALM), [StatusStep(GRANT, "h", 0)] + []);
    RunStep(b2, StatusStep(GRANT, "h", 0), []);
  }

  /**
    The run: the mutation is allowed, submitted and sent; the second client is bound; the call comes back
    with a failure; and the second client, allowed and asking the same, is told that failure and sends nothing.
  */
  lemma FailureReplayedAfterRebinding()
    ensures var b := Run(Initial(Some(FIRST)),
                         [StatusStep(GRANT, "h", 0)] + ([ExecuteStep(0, ASKED, WRITE, CALM)] + ([SendStep(0, None)]
                         + ([BindStep(Some(SECOND))] + ([ResumeStep(0, CALM)] + ([StatusStep(GRANT, "h", 0)] + []))))));
      && ReplaysForeign(b, ASKED, WRITE, CALM)
      && Execute(b, 0, ASKED, WRITE, CALM).1 == Replayed(Failed(OwnerChanged))
      && Execute(b, 0, ASKED, WRITE, CALM).0.submitted == b.submitted == [ASKED]
  {
    FirstClientSends([BindStep(Some(SECOND))] + ([ResumeStep(0, CALM)] + ([StatusStep(GRANT, "h", 0)] + [])));
    SecondClientIsBound();
    hide Run;
    assert Execute(TOLD, 0, ASKED, WRITE, CALM).1 == Replayed(Failed(OwnerChanged));
  }

  // ---- Permission ----

  predicate OneEach(ss: seq<Status>) { forall i, j :: 0 <= i < j < |ss| ==> ss[i].target != ss[j].target }

  // The phone allows this capability, by a status no more than two minutes old.
  predicate Permits(s: Status, t: Target, capability: Text, now: int) {
    s.target == t && s.available && capability in s.enabled && s.sentAt >= now - 120
  }

  /**
    No permission, no effect. A call that is not refused, and an answer of a phone that is let out, each
    rest on a status of that very phone that is available, enables the capability and is at most two
    minutes old.
  */
  lemma NothingWithoutPermission(b: Bridge, id: CallId, r: RequestId, fp: Fingerprint, env: Surroundings, waiting: CallId)
    ensures !Execute(b, id, r, fp, env).1.Refused? ==>
              exists s :: s in b.statuses && Permits(s, r.coordinates.target, fp.operation.capability, env.now)
    ensures Waiting(b, waiting) && b.futures[b.calls[waiting].serial].Set? && Resume(b, waiting, env).1.FromPhone? ==>
              exists s :: s in b.statuses
                          && Permits(s, b.calls[waiting].request.coordinates.target, b.calls[waiting].fingerprint.operation.capability, env.now)
  {
    hide Finish, Submit;
    var i := StatusAt(b.statuses, r.coordinates.target);
    if i < |b.statuses| {
      assert b.statuses[i] in b.statuses;
    }
    if Waiting(b, waiting) {
      var k := StatusAt(b.statuses, b.calls[waiting].request.coordinates.target);
      if k < |b.statuses| {
        assert b.statuses[k] in b.statuses;
      }
    }
  }

  // The status this run accepted last from a phone.
  function Latest(client: Option<Client>, steps: seq<Step>, t: Target): Option<Status>
    decreases |steps|
  {
    if steps == [] then None
    else
      var before, last := steps[..|steps| - 1], steps[|steps| - 1];
      if last.StatusStep? && last.status.target == t && AcceptStatus(Run(Initial(client), before), last.status, last.addressee, last.now).1
      then Some(last.status) else Latest(client, before, t)
  }

  lemma RunThen(b: Bridge, steps: seq<Step>, step: Step)
    ensures Run(b, steps + [step]) == Apply(Run(b, steps), step)
    decreases |steps|
  {
    hide Apply;
    if steps == [] {
      assert [] + [step] == [step] && [step][1..] == [];
    } else {
      RunThen(Apply(b, steps[0]), steps[1..], step);
      assert (steps + [step])[1..] == steps[1..] + [step];
    }
  }

  // What each step does to the statuses: an accepted one replaces its phone's, and the others only go.
  lemma StatusesAfter(b: Bridge, step: Step)
    requires OneEach(b.statuses)
    ensures var b' := Apply(b, step);
      var taken := step.StatusStep? && AcceptStatus(b, step.status, step.addressee, step.now).1;
      && OneEach(b'.statuses)
      && (forall s :: s in b'.statuses ==> (taken && s == step.status) || (s in b.statuses && (taken ==> s.target != step.status.target)))
  {
    hide Execute, Finish, Cancel, Resume, Expire, Record;
    match step
    case ExecuteStep(id, r, fp, env) => ExecuteKeepsStatuses(b, id, r, fp, env);
    case SendStep(id, failure) => if id in b.calls && failure.Some? { FinishKeepsStatuses(b, id, Failed(failure.value)); }
    case ResumeStep(id, env) =>
      if Waiting(b, id) && b.futures[b.calls[id].serial].Set? { ResumeKeepsStatuses(b, id, env); }
    case ExpireStep(id) => if id in b.calls { ExpireKeepsStatuses(b, id); }
    case CancelStep(id) => if id in b.calls { CancelKeepsStatuses(b, id); }
    case ResultStep(m, addressee, routed) =>
    case StatusStep(s, addressee, now) =>
      FailingKeeps(b.(statuses := PutStatus(b.statuses, s)), Covered(b, s), AuthorizationRequired);
      PutReplaces(b.statuses, s);
    case RetireStep(targets, hit) =>
      FailingKeeps(b.(statuses := Unrouted(b.statuses, targets)), hit, OwnerChanged);
      UnroutedKeeps(b.statuses, targets);
    case BindStep(client) =>
      FailingKeeps(b.(statuses := [], outcomes := [], forgotten := b.forgotten + Ids(b.outcomes)), b.pending.Keys, OwnerChanged);
  }

  lemma ExecuteKeepsStatuses(b: Bridge, id: CallId, r: RequestId, fp: Fingerprint, env: Surroundings)
    ensures Execute(b, id, r, fp, env).0.statuses == b.statuses
  {
  }

  lemma FinishKeepsStatuses(b: Bridge, id: CallId, answer: Answer)
    requires id in b.calls
    ensures Finish(b, id, answer).statuses == b.statuses
  {
  }

  lemma ResumeKeepsStatuses(b: Bridge, id: CallId, env: Surroundings)
    requires Waiting(b, id) && b.futures[b.calls[id].serial].Set?
    ensures Resume(b, id, env).0.statuses == b.statuses
  {
  }

  lemma ExpireKeepsStatuses(b: Bridge, id: CallId)
    requires id in b.calls
    ensures Expire(b, id).0.statuses == b.statuses
  {
  }

  lemma CancelKeepsStatuses(b: Bridge, id: CallId)
    requires id in b.calls
    ensures Cancel(b, id).statuses == b.statuses
  {
  }

  lemma PutReplaces(ss: seq<Status>, s: Status)
    requires OneEach(ss)
    ensures OneEach(PutStatus(ss, s)) && s in PutStatus(ss, s)
    ensures forall x :: x in PutStatus(ss, s) ==> x == s || (x in ss && x.target != s.target)
    ensures |ss| < MAX_STATUSES ==> forall x :: x in ss && x.target != s.target ==> x in PutStatus(ss, s)
  {
    var rest, n := Replacing(ss, s);
    hide PutStatus, OneEach;
    Appended(rest, s, n);
  }

  // What is stored is the others and the new status, without the oldest that are too many.
  lemma Replacing(ss: seq<Status>, s: Status) returns (rest: seq<Status>, n: nat)
    requires OneEach(ss)
    ensures OneEach(rest) && (forall x :: x in rest <==> x in ss && x.target != s.target) && |rest| <= |ss|
    ensures n <= |rest| && (|rest| < MAX_STATUSES ==> n == 0) && PutStatus(ss, s) == (rest + [s])[n..]
  {
    var i := StatusAt(ss, s.target);
    rest := if i < |ss| then ss[..i] + ss[i + 1..] else ss;
    n := Excess(rest + [s], MAX_STATUSES);
    assert PutStatus(ss, s) == (rest + [s])[n..];
    hide PutStatus, StatusAt;
    LeftOut(ss, i, s.target);
  }

  // The statuses without the one at a position.
  lemma LeftOut(ss: seq<Status>, i: nat, t: Target)
    requires OneEach(ss) && i <= |ss| && (i < |ss| ==> ss[i].target == t) && forall j :: 0 <= j < i ==> ss[j].target != t
    ensures var rest := if i < |ss| then ss[..i] + ss[i + 1..] else ss;
      OneEach(rest) && forall x :: x in rest <==> x in ss && x.target != t
  {
    var rest := if i < |ss| then ss[..i] + ss[i + 1..] else ss;
    assert forall k :: 0 <= k < |rest| ==> rest[k] == if k < i then ss[k] else ss[k + 1];
    forall x | x in ss && x.target != t ensures x in rest {
      var k :| 0 <= k < |ss| && ss[k] == x;
      assert rest[if k < i then k else k - 1] == x;
    }
  }

  lemma Appended(rest: seq<Status>, s: Status, n: nat)
    requires OneEach(rest) && n <= |rest| && forall x :: x in rest ==> x.target != s.target
    ensures var kept := (rest + [s])[n..];
      && OneEach(kept) && s in kept && (forall x :: x in kept ==> x in rest || x == s)
      && (n == 0 ==> forall x :: x in rest ==> x in kept)
  {
    var kept := (rest + [s])[n..];
    assert kept == rest[n..] + [s];
    assert forall k :: 0 <= k < |rest| - n ==> kept[k] == rest[k + n];
    assert kept[|rest| - n] == s;
  }

  lemma {:induction false} UnroutedKeeps(ss: seq<Status>, routed: set<Target>)
    ensures forall x :: x in Unrouted(ss, routed) <==> x in ss && x.target !in routed
    ensures OneEach(ss) ==> OneEach(Unrouted(ss, routed))
  {
    if ss != [] {
      UnroutedKeeps(ss[1..], routed);
      var rest := Unrouted(ss[1..], routed);
      if OneEach(ss) {
        forall j | 0 <= j < |rest| ensures rest[j].target != ss[0].target {
          assert rest[j] in ss[1..];
        }
      }
    }
  }

  /** Over every run, each status held is the one accepted last from its phone. */
  lemma {:induction false} StatusesAreLatest(client: Option<Client>, steps: seq<Step>)
    ensures var b := Run(Initial(client), steps);
      OneEach(b.statuses) && forall s :: s in b.statuses ==> Latest(client, steps, s.target) == Some(s)
    decreases |steps|
  {
    hide Apply, AcceptStatus;
    if steps != [] {
      var before, last := steps[..|steps| - 1], steps[|steps| - 1];
      StatusesAreLatest(client, before);
      RunThen(Initial(client), before, last);
      assert before + [last] == steps;
      StatusesAfter(Run(Initial(client), before), last);
    }
  }

  /**
    Over every run: a call that goes anywhere, and an answer of a phone that is let out, rest on the status
    that phone sent last, which is available, enables the capability and is at most two minutes old.
  */
  lemma LatestStatusDecides(client: Option<Client>, steps: seq<Step>, id: CallId, r: RequestId, fp: Fingerprint, env: Surroundings, waiting: CallId)
    ensures var b := Run(Initial(client), steps);
      var latest := Latest(client, steps, r.coordinates.target);
      !Execute(b, id, r, fp, env).1.Refused? ==>
        latest.Some? && Permits(latest.value, r.coordinates.target, fp.operation.capability, env.now)
    ensures var b := Run(Initial(client), steps);
      Waiting(b, waiting) && b.futures[b.calls[waiting].serial].Set? && Resume(b, waiting, env).1.FromPhone? ==>
        var t := b.calls[waiting].request.coordinates.target;
        Latest(client, steps, t).Some? && Permits(Latest(client, steps, t).value, t, b.calls[waiting].fingerprint.operation.capability, env.now)
  {
    hide Execute, Resume, Run, Latest;
    StatusesAreLatest(client, steps);
    NothingWithoutPermission(Run(Initial(client), steps), id, r, fp, env, waiting);
  }

  // ---- What each call comes to ----

  // Everything that must hold before the request id is looked at.
  ghost predicate Admissible(b: Bridge, r: RequestId, fp: Fingerprint, env: Surroundings) {
    && env.contextError.None? && r.toolCallId != [] && env.leaseError.None? && env.connected && env.routeError.None?
    && b.client.Some? && b.client.value.hostId != [] && b.client.value.hostId == r.coordinates.target.hostId
    && exists s :: s in b.statuses && Permits(s, r.coordinates.target, fp.operation.capability, env.now)
  }

  ghost predicate Recorded(b: Bridge, r: RequestId, fp: Fingerprint, answer: Answer) {
    exists e :: e in b.outcomes && e.request == r && e.fingerprint == fp && e.answer == answer
  }

  ghost predicate Known(b: Bridge, r: RequestId) { exists e :: e in b.outcomes && e.request == r }

  lemma GuardIff(b: Bridge, r: RequestId, fp: Fingerprint, env: Surroundings)
    requires OneEach(b.statuses)
    ensures Guard(b, r, fp.operation, env).None? <==> Admissible(b, r, fp, env)
  {
    var t := r.coordinates.target;
    var i := StatusAt(b.statuses, t);
    if i < |b.statuses| {
      assert b.statuses[i] in b.statuses;
    }
    if s :| s in b.statuses && Permits(s, t, fp.operation.capability, env.now) {
      var k :| 0 <= k < |b.statuses| && b.statuses[k] == s;
      assert k == i;
    }
  }

  /**
    What becomes of a call. It joins the pending request of its id, replays the recorded outcome, or submits
    a new request, exactly if it is admissible and asks for the same as what is pending, or recorded, or
    nothing is and there is room; otherwise it is refused and nothing changes. Only a submission reaches
    the transport.
  */
  lemma ExecuteIff(b: Bridge, id: CallId, r: RequestId, fp: Fingerprint, env: Surroundings)
    requires OneEach(b.statuses) && Distinct(b.outcomes)
    ensures var (b', reply) := Execute(b, id, r, fp, env);
      && (reply.Joined? <==> Admissible(b, r, fp, env) && r in b.pending && b.pending[r].fingerprint == fp)
      && (forall answer :: reply == Replayed(answer) <==> Admissible(b, r, fp, env) && r !in b.pending && Recorded(b, r, fp, answer))
      && (reply.Submitted? <==> Admissible(b, r, fp, env) && r !in b.pending && !Known(b, r) && !env.tooLarge && |b.pending| < 128)
      && (reply.Refused? ==> b' == b) && (!reply.Submitted? ==> b'.submitted == b.submitted && b'.pending == b.pending)
      && (reply.Submitted? ==>
            && b'.submitted == (if fp.operation.verb in {Read, List} then b.submitted else b.submitted + [r])
            && r in b'.pending && b'.pending[r] == Pending(b.nextSerial, env.now, fp)
            && b.nextSerial in b'.futures && b'.futures[b.nextSerial] == Unset
            && id in b'.calls && b'.calls[id] == Call(r, b.nextSerial, fp, b.client.value.id, true))
      && (reply.Joined? ==> id in b'.calls && b'.calls[id] == Call(r, b.pending[r].serial, fp, b.client.value.id, false))
  {
    GuardIff(b, r, fp, env);
    HasMeans(b.outcomes, r);
    hide Guard, Admissible, Without;
    var i := Position(b.outcomes, r);
    if i < |b.outcomes| {
      OnlyEntry(b.outcomes, i);
    }
  }

  lemma OnlyEntry(es: seq<Entry>, i: nat)
    requires Distinct(es) && i < |es|
    ensures forall e :: e in es && e.request == es[i].request ==> e == es[i]
  {
  }

  /**
    A result is accepted if and only if it comes to this host, for a pending request, with that request's
    coordinates and operation, over its route and no earlier than it was asked; it then answers the request
    unless it is answered already, and touches nothing else.
  */
  lemma ResultIff(b: Bridge, m: Message, addressee: Text, routed: bool)
    requires forall r :: r in b.pending ==> b.pending[r].serial in b.futures
    ensures var (b', accepted) := AcceptResult(b, m, addressee, routed);
      && (accepted <==>
            && b.client.Some? && b.client.value.hostId == addressee == m.coordinates.target.hostId && m.request in b.pending
            && m.coordinates == m.request.coordinates && m.operation == b.pending[m.request].fingerprint.operation
            && routed && m.sentAt >= b.pending[m.request].sentAt)
      && (accepted ==>
            var s := b.pending[m.request].serial;
            b' == b.(futures := b.futures[s := if b.futures[s].Set? then b.futures[s] else Set(FromPhone(m.status, m.payload))]))
      && (!accepted ==> b' == b)
  {
    if m.request in b.pending {
      var s := b.pending[m.request].serial;
      assert b.futures[s := b.futures[s]] == b.futures;
    }
  }

  /**
    A status is accepted if and only if it comes to and from this host's phone, at most two minutes old and
    half a minute ahead, and is no older than and different from the phone's last. It then takes that one's
    place, and exactly the unanswered requests to this phone it does not permit fail.
  */
  lemma StatusIff(b: Bridge, s: Status, addressee: Text, now: int)
    requires OneEach(b.statuses) && forall r, q :: r in b.pending && q in b.pending && b.pending[r].serial == b.pending[q].serial ==> r == q
    ensures var (b', accepted) := AcceptStatus(b, s, addressee, now);
      && (accepted <==>
            && b.client.Some? && b.client.value.hostId == addressee == s.target.hostId && now - 120 <= s.sentAt <= now + 30
            && forall x :: x in b.statuses && x.target == s.target ==> x.sentAt <= s.sentAt && x != s)
      && (!accepted ==> b' == b)
      && (accepted ==>
            && s in b'.statuses && (forall x :: x in b'.statuses ==> x == s || (x in b.statuses && x.target != s.target))
            && (|b.statuses| < 32 ==> forall x :: x in b.statuses && x.target != s.target ==> x in b'.statuses)
            && (b'.pending, b'.outcomes, b'.calls) == (b.pending, b.outcomes, b.calls)
            && (forall r :: r in b.pending && b.pending[r].serial in b.futures ==>
                  b'.futures[b.pending[r].serial]
                  == if b.futures[b.pending[r].serial].Unset? && r.coordinates.target == s.target
                        && !(s.available && b.pending[r].fingerprint.operation.capability in s.enabled)
                     then Set(Failed(AuthorizationRequired)) else b.futures[b.pending[r].serial]))
  {
    NewerMeans(b.statuses, s);
    PutReplaces(b.statuses, s);
    var b1 := b.(statuses := PutStatus(b.statuses, s));
    FailingKeeps(b1, Covered(b, s), AuthorizationRequired);
    FailingMeans(b1, Covered(b, s), AuthorizationRequired);
    hide PutStatus, Newer, FailPending;
  }

  lemma NewerMeans(ss: seq<Status>, s: Status)
    requires OneEach(ss)
    ensures Newer(ss, s) <==> forall x :: x in ss && x.target == s.target ==> x.sentAt <= s.sentAt && x != s
  {
    var i := StatusAt(ss, s.target);
    if i < |ss| {
      assert ss[i] in ss;
      forall x | x in ss && x.target == s.target ensures x == ss[i] {
        var k :| 0 <= k < |ss| && ss[k] == x;
      }
    }
  }

  lemma FailingMeans(b: Bridge, hit: set<RequestId>, code: Code)
    requires forall r, q :: r in b.pending && q in b.pending && b.pending[r].serial == b.pending[q].serial ==> r == q
    ensures var b' := FailPending(b, hit, code);
      && (forall r :: r in b.pending && b.pending[r].serial in b.futures ==>
            b.pending[r].serial in b'.futures
            && b'.futures[b.pending[r].serial]
               == if b.futures[b.pending[r].serial].Unset? && r in hit then Set(Failed(code)) else b.futures[b.pending[r].serial])
      && (forall s :: s in b.futures && (forall r :: r in b.pending ==> b.pending[r].serial != s) ==> s in b'.futures && b'.futures[s] == b.futures[s])
  {
  }

  /** Another client: nothing of the old one's is remembered, every unanswered request fails, and every call still ends. */
  lemma BoundAnew(b: Bridge, client: Option<Client>)
    requires forall r, q :: r in b.pending && q in b.pending && b.pending[r].serial == b.pending[q].serial ==> r == q
    ensures var b' := Bind(b, client);
      && b'.client == client && (client == b.client ==> b' == b)
      && (client != b.client ==>
            && b'.statuses == [] && b'.outcomes == [] && b'.pending == b.pending && b'.calls == b.calls
            && forall r :: r in b.pending && b.pending[r].serial in b.futures && b.futures[b.pending[r].serial].Unset? ==>
                 b'.futures[b.pending[r].serial] == Set(Failed(OwnerChanged)))
  {
    if client != b.client {
      var b1 := b.(statuses := [], outcomes := [], forgotten := b.forgotten + Ids(b.outcomes));
      FailingKeeps(b1, b.pending.Keys, OwnerChanged);
      FailingMeans(b1, b.pending.Keys, OwnerChanged);
      hide FailPending;
    }
  }

  /** Routes that end: the statuses of their phones go and all others stay, and the unanswered requests over them fail. */
  lemma RetiredRoutes(b: Bridge, targets: set<Target>, hit: set<RequestId>)
    requires forall r, q :: r in b.pending && q in b.pending && b.pending[r].serial == b.pending[q].serial ==> r == q
    ensures var b' := Retire(b, targets, hit);
      && (forall s :: s in b'.statuses <==> s in b.statuses && s.target !in targets)
      && (b'.client, b'.pending, b'.outcomes, b'.calls) == (b.client, b.pending, b.outcomes, b.calls)
      && (forall r :: r in b.pending && b.pending[r].serial in b.futures ==>
            b'.futures[b.pending[r].serial]
            == if b.futures[b.pending[r].serial].Unset? && r in hit then Set(Failed(OwnerChanged)) else b.futures[b.pending[r].serial])
  {
    var b1 := b.(statuses := Unrouted(b.statuses, targets));
    UnroutedKeeps(b.statuses, targets);
    FailingKeeps(b1, hit, OwnerChanged);
    FailingMeans(b1, hit, OwnerChanged);
    hide FailPending, Unrouted;
  }

  // The request of a call that ends pends no more, unless another call has taken its place.
  function StillPending(b: Bridge, call: Call): map<RequestId, Pending> {
    if call.request in b.pending && b.pending[call.request].serial == call.serial then b.pending - {call.request} else b.pending
  }

  /**
    The other ends of a call. One whose send fails, or that waits too long, ends with that failure, which is
    remembered last for a mutation and not at all for a read; a cancelled one is not remembered; and in each
    case its request pends no more, unless another call has taken its place.
  */
  lemma CallEnds(b: Bridge, id: CallId, failure: Code)
    requires id in b.calls
    ensures var (call, b') := (b.calls[id], SendReturned(b, id, Some(failure)));
      && b'.pending == StillPending(b, call) && b'.calls == b.calls - {id} && b'.futures == b.futures
      && (call.fingerprint.operation.verb !in {Read, List} ==>
            b'.outcomes != [] && b'.outcomes[|b'.outcomes| - 1] == Entry(call.request, call.fingerprint, Failed(failure), call.client))
      && (call.fingerprint.operation.verb in {Read, List} ==> b'.outcomes == b.outcomes)
    ensures Expire(b, id) == (SendReturned(b, id, Some(TimedOut)), Failed(TimedOut))
    ensures SendReturned(b, id, None) == b.(calls := b.calls[id := b.calls[id].(sending := false)])
    ensures var b' := Cancel(b, id);
      b'.pending == StillPending(b, b.calls[id]) && b'.calls == b.calls - {id} && b'.outcomes == b.outcomes && b'.futures == b.futures
  {
    RecordedLast(b, b.calls[id], Failed(failure));
    hide Record;
  }

  lemma RecordedLast(b: Bridge, call: Call, answer: Answer)
    ensures var b' := Record(b, call, answer);
      && (b'.pending, b'.calls, b'.futures) == (b.pending, b.calls, b.futures)
      && (call.fingerprint.operation.verb in {Read, List} ==> b'.outcomes == b.outcomes)
      && (call.fingerprint.operation.verb !in {Read, List} ==>
            b'.outcomes != [] && b'.outcomes[|b'.outcomes| - 1] == Entry(call.request, call.fingerprint, Redact(answer), call.client))
  {
    hide Without, Ids, Redact;
  }

  /**
    What a call that waited comes back with: a failure that was set, as it is; and a phone's answer if and only
    if the context stands, the client is the one it asked under, the route is the one it went out on, and the
    phone still permits it - else the reason it is withheld.
  */
  lemma ResumeIff(b: Bridge, id: CallId, env: Surroundings)
    requires Waiting(b, id) && b.futures[b.calls[id].serial].Set? && OneEach(b.statuses)
    ensures var call := b.calls[id]; var given, answer := b.futures[call.serial].answer, Resume(b, id, env).1;
      && (given.Failed? ==> answer == given)
      && (given.FromPhone? ==>
            (answer == given <==>
              && env.contextError.None? && b.client.Some? && b.client.value.id == call.client && env.routeError.None?
              && exists s :: s in b.statuses && Permits(s, call.request.coordinates.target, call.fingerprint.operation.capability, env.now)))
      && (given.FromPhone? && answer != given ==> answer.Failed?)
      && (given.FromPhone? && env.contextError.Some? ==> answer == Failed(env.contextError.value))
  {
    var call := b.calls[id];
    PermittedIff(b.statuses, call.request.coordinates.target, call.fingerprint.operation.capability, env.now);
    hide Finish, Allowed, OneEach, Permits;
  }

  lemma PermittedIff(ss: seq<Status>, t: Target, capability: Text, now: int)
    requires OneEach(ss)
    ensures Allowed(ss, t, capability, now) <==> exists s :: s in ss && Permits(s, t, capability, now)
  {
    var i := StatusAt(ss, t);
    if i < |ss| {
      assert ss[i] in ss;
    }
    if s :| s in ss && Permits(s, t, capability, now) {
      var k :| 0 <= k < |ss| && ss[k] == s;
      assert k == i;
    }
  }

  /**
    The answer that comes back and is remembered. An answered mutation comes back with the phone's answer if
    the context, client, route and permission still hold, else with the reason they do not; and asking
    again replays it, with the id, revision and deletion of its payload and nothing else.
  */
  lemma AnswerIsReplayed(b: Bridge, id: CallId, env: Surroundings, again: CallId, env': Surroundings)
    requires Waiting(b, id) && b.futures[b.calls[id].serial].Set? && IsCurrent(b, b.calls[id]) && OneEach(b.statuses)
    requires Distinct(b.outcomes) && b.calls[id].fingerprint.operation.verb !in {Read, List}
    requires Admissible(b, b.calls[id].request, b.calls[id].fingerprint, env')
    ensures var call := b.calls[id];
      var phone := b.futures[call.serial].answer;
      var (b', answer) := Resume(b, id, env);
      && ((phone.FromPhone? && env.contextError.None? && b.client == Some(Client(call.client, b.client.value.hostId)) && env.routeError.None?
           && Admissible(b, call.request, call.fingerprint, env.(leaseError := None, connected := true))) ==> answer == phone)
      && (answer == phone || answer.Failed?)
      && Execute(b', again, call.request, call.fingerprint, env').1 == Replayed(Redact(answer))
  {
    var call := b.calls[id];
    var (b', answer) := Resume(b, id, env);
    GuardIff(b, call.request, call.fingerprint, env.(leaseError := None, connected := true));
    RecordedIsFound(b, call, answer);
    FinishParts(b, id, answer);
    GuardIff(b, call.request, call.fingerprint, env');
    GuardKept(b, b', call.request, call.fingerprint, env');
    hide Finish, Record, Guard, Admissible, Redact;
  }

  lemma GuardKept(b: Bridge, b': Bridge, r: RequestId, fp: Fingerprint, env: Surroundings)
    requires (b'.client, b'.statuses) == (b.client, b.statuses)
    ensures Guard(b', r, fp.operation, env) == Guard(b, r, fp.operation, env)
  {
  }

  /** What is remembered of an answer: its status, and of its payload everything that is not private. */
  lemma RedactedKeeps(a: Answer)
    ensures a.Failed? ==> Redact(a) == a
    ensures a.FromPhone? ==>
              && Redact(a).FromPhone? && Redact(a).status == a.status
              && (forall k :: k in Redact(a).payload <==> k in a.payload && (k == Id || k == Revision || k == Deleted))
              && (forall k :: k in Redact(a).payload ==> Redact(a).payload[k] == a.payload[k])
  {
  }
}
