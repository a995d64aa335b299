/**
  Admission authority of the direct transport: lifecycle fences, write-once enrollments and
  one-use session challenges. `Authority` is its state as a value; the class keeps the same state
  in fields, publishes a denial before it persists it, and is proved against the value functions.

  A signature is a value that verifies under one key for one transcript, and the request hash is the
  transcript itself, which is what an injective hash amounts to.
*/
module DirectConnection {
  import Sets
  import opened Numbers
  import opened Wrappers

  type DeviceId = string
  type Nonce = string

  const ENROLLMENT_TTL: real := 300.0
  const ENROLLMENT_LIMIT := 256
  const BINDING_LIMIT := 256
  const FENCE_LIMIT := 257
  const LIFECYCLE_TTL: real := 300.0
  const CHALLENGE_TTL: real := 30.0
  const CHALLENGE_LIMIT := 64

  datatype Role = Mobile | Host

  // One row of an authenticated device catalog, already parsed.
  datatype Device = Device(role: Role, active: bool, epoch: int, revokedAt: Option<int>)

  datatype Owner = Owner(deviceId: DeviceId, epoch: int)

  datatype Transcript = Transcript(device: DeviceId, epoch: int, exchangeId: string, nonce: Nonce, key: string)

  datatype SessionTranscript =
    SessionTranscript(owner: Owner, device: DeviceId, epoch: int, connection: string, nonce: Nonce, clientNonce: string)

  // The two domains never share a transcript.
  datatype Signed = Enrolling(enrollment: Transcript) | Opening(session: SessionTranscript)

  datatype Proof = Signature(key: string, signed: Signed) | Unreadable

  datatype Enrollment = Enrollment(exchangeId: string, nonce: Nonce, key: string, proof: Proof)

  // The outcome echoes the request under the host's signature.
  datatype Binding = Binding(epoch: int, key: string, requestHash: Transcript, outcome: Transcript)

  datatype Challenge = Challenge(device: DeviceId, epoch: int, connection: string, clientNonce: string, expiresAt: real)

  datatype Issue = Issue(device: DeviceId, epoch: int, connection: string, clientNonce: string, at: real)

  datatype Peer = Peer(owner: Owner, device: DeviceId, epoch: int, key: string)

  datatype Error =
    | EpochInvalidated | CapacityExhausted | ProofInvalid | EpochStale | KeyChanged | AlreadyEnrolled
    | NonceUsed | NonceCapacity | StoreFailed | RolledBack
    | Stale | HostInvalid | PeerInvalid | PeerUnknown
    | ChallengeCapacity | ChallengeUnknown | ChallengeExpired | ContextMismatch | OtherOwner | Replaced

  datatype Fences = Fences(
    denied: map<DeviceId, int>,               // _denied_through
    stored: map<DeviceId, int>,               // what the state store holds
    dirty: bool,                              // _fences_dirty
    devices: map<DeviceId, Device>,           // _lifecycle_devices
    refreshedAt: Option<real>)                // _lifecycle_refreshed_at

  datatype Bindings = Bindings(
    bound: map<DeviceId, Binding>,            // _bindings
    stored: map<DeviceId, Binding>,           // what the state store holds
    nonces: map<Nonce, real>)                 // _enrollment_nonces

  datatype Sessions = Sessions(
    live: map<Nonce, Challenge>,              // _challenges
    issued: multiset<Nonce>,                  // history: challenges handed out
    issues: map<Nonce, Issue>,                // history: the latest issue of a nonce
    authenticated: multiset<Nonce>)           // history: challenges that produced a peer

  datatype Authority = Authority(owner: Owner, fences: Fences, bindings: Bindings, sessions: Sessions)

  function Floor(denied: map<DeviceId, int>, d: DeviceId): int { if d in denied then denied[d] else 0 }

  // ---- Lifecycle refresh ----

  datatype Expected = Expected(role: Role, epoch: int)

  function KnownDevices(owner: Owner, bindings: map<DeviceId, Binding>): map<DeviceId, Expected> {
    (map d | d in bindings :: Expected(Mobile, bindings[d].epoch))[owner.deviceId := Expected(Host, owner.epoch)]
  }

  function Known(a: Authority): map<DeviceId, Expected> { KnownDevices(a.owner, a.bindings.bound) }

  predicate Invalid(device: Device, role: Role) {
    !device.active || device.revokedAt.Some? || device.role != role
  }

  function NewFloor(floor: int, expected: Expected, device: Option<Device>): int {
    match device
    case None => expected.epoch
    case Some(v) =>
      if Invalid(v, expected.role) then (if expected.epoch < v.epoch then v.epoch else expected.epoch)
      else if v.epoch > expected.epoch then v.epoch - 1
      else floor
  }

  function Lookup<K, V>(m: map<K, V>, k: K): Option<V> {
    if k in m then Some(m[k]) else None
  }

  type Catalog = map<DeviceId, Device>

  // One device's fence after a catalog: raised by what the catalog says, never lowered.
  function FenceAfter(known: map<DeviceId, Expected>, denied: map<DeviceId, int>, catalog: Catalog, d: DeviceId): Option<int> {
    var floor := Floor(denied, d);
    var floor' := if d in known then NewFloor(floor, known[d], Lookup(catalog, d)) else floor;
    if floor' > floor then Some(floor') else Lookup(denied, d)
  }

  function Floors(known: map<DeviceId, Expected>, denied: map<DeviceId, int>, catalog: Catalog): map<DeviceId, int> {
    map d | d in denied.Keys + known.Keys && FenceAfter(known, denied, catalog, d).Some?
      :: FenceAfter(known, denied, catalog, d).value
  }

  lemma FloorsPointwise(known: map<DeviceId, Expected>, denied: map<DeviceId, int>, catalog: Catalog, d: DeviceId)
    ensures Lookup(Floors(known, denied, catalog), d) == FenceAfter(known, denied, catalog, d)
    ensures Floor(Floors(known, denied, catalog), d) >= Floor(denied, d)
  {
  }

  // A device the catalog calls active again although its epoch is already fenced.
  predicate RollsBack(known: map<DeviceId, Expected>, floors: map<DeviceId, int>, catalog: Catalog, d: DeviceId) {
    d in catalog && d in known && !Invalid(catalog[d], known[d].role) && catalog[d].epoch <= Floor(floors, d)
  }

  predicate SomeRollBack(known: map<DeviceId, Expected>, floors: map<DeviceId, int>, catalog: Catalog) {
    exists d :: d in catalog && RollsBack(known, floors, catalog, d)
  }

  function Refreshed(known: map<DeviceId, Expected>, f: Fences, catalog: Catalog, now: real, storeOk: bool)
    : (Fences, Option<Error>)
  {
    var floors := Floors(known, f.denied, catalog);
    Installed(f, floors, SomeRollBack(known, floors, catalog), catalog, now, storeOk)
  }

  function Installed(f: Fences, floors: map<DeviceId, int>, rollsBack: bool, catalog: Catalog, now: real, storeOk: bool)
    : (Fences, Option<Error>)
  {
    var dirty := f.dirty || floors != f.denied;
    if dirty && !storeOk then (f.(denied := floors, dirty := true, refreshedAt := None), Some(StoreFailed))
    else
      var kept := if dirty then f.(denied := floors, stored := floors, dirty := false, refreshedAt := None) else f;
      if rollsBack then (kept.(refreshedAt := None), Some(RolledBack))
      else (kept.(devices := catalog, refreshedAt := Some(now)), None)
  }

  // A refresh always publishes the new fences, and persists them unless it reports a failed store.
  lemma InstalledFloors(f: Fences, floors: map<DeviceId, int>, rollsBack: bool, catalog: Catalog, now: real, storeOk: bool)
    requires !f.dirty ==> f.stored == f.denied
    ensures var (f', error) := Installed(f, floors, rollsBack, catalog, now, storeOk);
      f'.denied == floors && (error != Some(StoreFailed) ==> f'.stored == floors && !f'.dirty)
  {
  }

  // ---- Current-peer check ----

  predicate ActiveAt(devices: Catalog, d: DeviceId, role: Role, epoch: int) {
    d in devices && !Invalid(devices[d], role) && devices[d].epoch == epoch
  }

  function CurrentPeer(a: Authority, d: DeviceId, epoch: int, now: real): Result<Binding, Error> {
    var f := a.fences;
    if f.refreshedAt.None? || now - f.refreshedAt.value > LIFECYCLE_TTL then Failure(Stale)
    else if a.owner.epoch <= Floor(f.denied, a.owner.deviceId) || epoch <= Floor(f.denied, d) then Failure(EpochInvalidated)
    else if !ActiveAt(f.devices, a.owner.deviceId, Host, a.owner.epoch) then Failure(HostInvalid)
    else if !ActiveAt(f.devices, d, Mobile, epoch) then Failure(PeerInvalid)
    else if d !in a.bindings.bound || a.bindings.bound[d].epoch != epoch then Failure(PeerUnknown)
    else Success(a.bindings.bound[d])
  }

  function ValidatedPeer(a: Authority, peer: Peer, now: real): Result<Peer, Error> {
    if peer.owner != a.owner then Failure(OtherOwner)
    else match CurrentPeer(a, peer.device, peer.epoch, now)
      case Failure(e) => Failure(e)
      case Success(b) => if b.key != peer.key then Failure(Replaced) else Success(peer)
  }

  // ---- Enrollment ----

  function PruneNonces(nonces: map<Nonce, real>, now: real): map<Nonce, real> {
    map n | n in nonces && nonces[n] >= now :: nonces[n]
  }

  lemma ForgettingRestores(nonces: map<Nonce, real>, n: Nonce, expiry: real)
    requires n !in nonces
    ensures nonces[n := expiry] - {n} == nonces
  {
  }

  function TranscriptOf(d: DeviceId, epoch: int, e: Enrollment): Transcript {
    Transcript(d, epoch, e.exchangeId, e.nonce, e.key)
  }

  predicate EnrollmentProved(d: DeviceId, epoch: int, e: Enrollment) {
    e.proof == Signature(e.key, Enrolling(TranscriptOf(d, epoch, e)))
  }

  // The checks that come before anything is written.
  function EnrollmentError(denied: map<DeviceId, int>, bound: map<DeviceId, Binding>, d: DeviceId, epoch: int, e: Enrollment)
    : Option<Error>
  {
    if epoch <= Floor(denied, d) then Some(EpochInvalidated)
    else if d !in bound && |bound| >= BINDING_LIMIT then Some(CapacityExhausted)
    else if !EnrollmentProved(d, epoch, e) then Some(ProofInvalid)
    else if d in bound && epoch < bound[d].epoch then Some(EpochStale)
    else if d in bound && epoch == bound[d].epoch then
      if bound[d].key != e.key then Some(KeyChanged)
      else if bound[d].requestHash != TranscriptOf(d, epoch, e) then Some(AlreadyEnrolled)
      else None
    else None
  }

  function Enrolled(denied: map<DeviceId, int>, b: Bindings, d: DeviceId, epoch: int, e: Enrollment, now: real, storeOk: bool)
    : (Bindings, Result<Transcript, Error>)
  {
    var error := EnrollmentError(denied, b.bound, d, epoch, e);
    if error.Some? then (b, Failure(error.value))
    else if d in b.bound && epoch == b.bound[d].epoch then (b, Success(b.bound[d].outcome))
    else Stored(b, d, epoch, e, now, storeOk)
  }

  function Stored(b: Bindings, d: DeviceId, epoch: int, e: Enrollment, now: real, storeOk: bool)
    : (Bindings, Result<Transcript, Error>)
  {
    var pruned := PruneNonces(b.nonces, now);
    if e.nonce in pruned then (b.(nonces := pruned), Failure(NonceUsed))
    else if |pruned| >= ENROLLMENT_LIMIT then (b.(nonces := pruned), Failure(NonceCapacity))
    else if !storeOk then (b.(nonces := pruned), Failure(StoreFailed))
    else
      var t := TranscriptOf(d, epoch, e);
      var candidate := b.bound[d := Binding(epoch, e.key, t, t)];
      (Bindings(candidate, candidate, pruned[e.nonce := now + ENROLLMENT_TTL]), Success(t))
  }

  // ---- Challenges ----

  function PruneChallenges(live: map<Nonce, Challenge>, now: real): map<Nonce, Challenge> {
    map n | n in live && live[n].expiresAt >= now :: live[n]
  }

  // `current` is the peer check; `nonce` is the first drawn nonce that names no live challenge.
  function Issued(s: Sessions, current: Result<Binding, Error>, d: DeviceId, epoch: int, connection: string,
                  clientNonce: string, nonce: Nonce, now: real): (Sessions, Result<Nonce, Error>)
  {
    match current
    case Failure(e) => (s, Failure(e))
    case Success(_) =>
      var live := PruneChallenges(s.live, now);
      if |live| >= CHALLENGE_LIMIT then (s.(live := live), Failure(ChallengeCapacity))
      else
        (s.(live := live[nonce := Challenge(d, epoch, connection, clientNonce, now + CHALLENGE_TTL)],
            issued := s.issued + multiset{nonce}, issues := s.issues[nonce := Issue(d, epoch, connection, clientNonce, now)]),
         Success(nonce))
  }

  // The signature the holder of this key makes when it answers this challenge.
  function SessionProof(owner: Owner, key: string, d: DeviceId, epoch: int, connection: string, nonce: Nonce, clientNonce: string)
    : Proof
  {
    Signature(key, Opening(SessionTranscript(owner, d, epoch, connection, nonce, clientNonce)))
  }

  function Verified(s: Sessions, owner: Owner, current: Result<Binding, Error>, d: DeviceId, epoch: int,
                    connection: string, nonce: Nonce, proof: Proof, now: real): (Sessions, Result<Peer, Error>)
  {
    if nonce !in s.live then (s, Failure(ChallengeUnknown))
    else
      var c := s.live[nonce];
      var popped := s.(live := s.live - {nonce});
      if c.expiresAt < now then (popped, Failure(ChallengeExpired))
      else if c.device != d || c.epoch != epoch || c.connection != connection then (popped, Failure(ContextMismatch))
      else match current
        case Failure(e) => (popped, Failure(e))
        case Success(b) =>
          if proof != SessionProof(owner, b.key, d, epoch, connection, nonce, c.clientNonce) then (popped, Failure(ProofInvalid))
          else (popped.(authenticated := s.authenticated + multiset{nonce}), Success(Peer(owner, d, epoch, b.key)))
  }

  // A new authority over the same store.
  function Restarted(a: Authority): Authority {
    Authority(a.owner, Fences(a.fences.stored, a.fences.stored, false, map[], None),
              Bindings(a.bindings.stored, a.bindings.stored, map[]), a.sessions.(live := map[]))
  }

  /** One authority instance; every method runs under its lock. */
  class DirectConnectionAuthority {
    const owner: Owner
    var bindings: map<DeviceId, Binding>
    var storedBindings: map<DeviceId, Binding>
    var deniedThrough: map<DeviceId, int>
    var storedDenied: map<DeviceId, int>
    var fencesDirty: bool
    var enrollmentNonces: map<Nonce, real>
    var challenges: map<Nonce, Challenge>
    var lifecycleDevices: map<DeviceId, Device>
    var lifecycleRefreshedAt: Option<real>
    ghost var issued: multiset<Nonce>
    ghost var issues: map<Nonce, Issue>
    ghost var authenticated: multiset<Nonce>

    ghost function Snapshot(): Authority
      reads this
    {
      Authority(owner, Fences(deniedThrough, storedDenied, fencesDirty, lifecycleDevices, lifecycleRefreshedAt),
                Bindings(bindings, storedBindings, enrollmentNonces),
                Sessions(challenges, issued, issues, authenticated))
    }

    constructor (a: Authority)
      ensures Snapshot() == Restarted(a)
    {
      owner := a.owner;
      bindings, storedBindings, enrollmentNonces := a.bindings.stored, a.bindings.stored, map[];
      deniedThrough, storedDenied, fencesDirty := a.fences.stored, a.fences.stored, false;
      lifecycleDevices, lifecycleRefreshedAt, challenges := map[], None, map[];
      issued, issues, authenticated := a.sessions.issued, a.sessions.issues, a.sessions.authenticated;
    }

    // The loop over known devices, in whatever order the dictionary yields them.
    method RaiseFloors(catalog: Catalog) returns (floors: map<DeviceId, int>)
      ensures floors == Floors(KnownDevices(owner, bindings), deniedThrough, catalog)
    {
      var known := (map d | d in bindings :: Expected(Mobile, bindings[d].epoch))[owner.deviceId := Expected(Host, owner.epoch)];
      floors := deniedThrough;
      var left := known.Keys;
      while left != {}
        invariant left <= known.Keys
        invariant forall d :: Lookup(floors, d) == if d in left then Lookup(deniedThrough, d)
                                                   else FenceAfter(known, deniedThrough, catalog, d)
        decreases left
      {
        var d :| d in left;
        assert Lookup(floors, d) == Lookup(deniedThrough, d);
        var expected := known[d];
        var old' := if d in floors then floors[d] else 0;
        var floor := old';
        if d !in catalog {
          floor := expected.epoch;
        } else if !catalog[d].active || catalog[d].revokedAt.Some? || catalog[d].role != expected.role {
          floor := if expected.epoch < catalog[d].epoch then catalog[d].epoch else expected.epoch;
        } else if catalog[d].epoch > expected.epoch {
          floor := catalog[d].epoch - 1;
        }
        ghost var before := floors;
        if floor > old' {
          floors := floors[d := floor];
        }
        assert forall e :: e != d ==> Lookup(floors, e) == Lookup(before, e);
        left := left - {d};
      }
      ghost var final := Floors(known, deniedThrough, catalog);
      forall d ensures Lookup(floors, d) == Lookup(final, d) {
        FloorsPointwise(known, deniedThrough, catalog, d);
      }
      SameLookups(floors, final);
    }

    method DetectRollback(floors: map<DeviceId, int>, catalog: Catalog) returns (found: bool)
      ensures found == SomeRollBack(KnownDevices(owner, bindings), floors, catalog)
    {
      found := false;
      var left := catalog.Keys;
      while left != {}
        invariant left <= catalog.Keys
        invariant found == exists d :: d in catalog.Keys - left && RollsBack(KnownDevices(owner, bindings), floors, catalog, d)
        decreases left
      {
        var d :| d in left;
        if d in bindings || d == owner.deviceId {
          var role := if d == owner.deviceId then Host else Mobile;
          if catalog[d].active && catalog[d].revokedAt.None? && catalog[d].role == role
             && catalog[d].epoch <= (if d in floors then floors[d] else 0)
          {
            assert RollsBack(KnownDevices(owner, bindings), floors, catalog, d);
            found := true;
          }
        }
        assert d in catalog.Keys - (left - {d});
        left := left - {d};
      }
    }

    method RefreshLifecycleCatalog(catalog: Catalog, now: real, storeOk: bool) returns (error: Option<Error>)
      modifies this`deniedThrough, this`fencesDirty, this`storedDenied, this`lifecycleDevices, this`lifecycleRefreshedAt
      ensures (Snapshot().fences, error)
              == Refreshed(Known(old(Snapshot())), old(Snapshot()).fences, catalog, now, storeOk)
    {
      var floors := RaiseFloors(catalog);
      var rollsBack := DetectRollback(floors, catalog);
      error := InstallFloors(floors, rollsBack, catalog, now, storeOk);
    }

    method InstallFloors(floors: map<DeviceId, int>, rollsBack: bool, catalog: Catalog, now: real, storeOk: bool)
      returns (error: Option<Error>)
      modifies this`deniedThrough, this`fencesDirty, this`storedDenied, this`lifecycleDevices, this`lifecycleRefreshedAt
      ensures (Snapshot().fences, error) == Installed(old(Snapshot()).fences, floors, rollsBack, catalog, now, storeOk)
    {
      if floors != deniedThrough {
        // Denial is published before it is persisted: a failed store can never keep an old authorization.
        deniedThrough := floors;
        fencesDirty := true;
      }
      if fencesDirty {
        lifecycleRefreshedAt := None;
        if !storeOk {
          return Some(StoreFailed);
        }
        storedDenied := floors;
        fencesDirty := false;
      }
      if rollsBack {
        lifecycleRefreshedAt := None;
        return Some(RolledBack);
      }
      lifecycleDevices := catalog;
      lifecycleRefreshedAt := Some(now);
      return None;
    }

    method RequireCurrentPeer(d: DeviceId, epoch: int, now: real) returns (r: Result<Binding, Error>)
      ensures r == CurrentPeer(Snapshot(), d, epoch, now)
    {
      if lifecycleRefreshedAt.None? || now - lifecycleRefreshedAt.value > LIFECYCLE_TTL {
        return Failure(Stale);
      }
      if owner.epoch <= (if owner.deviceId in deniedThrough then deniedThrough[owner.deviceId] else 0)
         || epoch <= (if d in deniedThrough then deniedThrough[d] else 0)
      {
        return Failure(EpochInvalidated);
      }
      if !ActiveAt(lifecycleDevices, owner.deviceId, Host, owner.epoch) {
        return Failure(HostInvalid);
      }
      if !ActiveAt(lifecycleDevices, d, Mobile, epoch) {
        return Failure(PeerInvalid);
      }
      if d !in bindings || bindings[d].epoch != epoch {
        return Failure(PeerUnknown);
      }
      return Success(bindings[d]);
    }

    method ValidatePeer(peer: Peer, now: real) returns (r: Result<Peer, Error>)
      ensures r == ValidatedPeer(Snapshot(), peer, now)
    {
      if peer.owner != owner {
        return Failure(OtherOwner);
      }
      var binding := RequireCurrentPeer(peer.device, peer.epoch, now);
      if binding.Failure? {
        return Failure(binding.error);
      }
      if binding.value.key != peer.key {
        return Failure(Replaced);
      }
      return Success(peer);
    }

    method CheckEnrollment(d: DeviceId, epoch: int, e: Enrollment) returns (error: Option<Error>)
      ensures error == EnrollmentError(deniedThrough, bindings, d, epoch, e)
    {
      if epoch <= (if d in deniedThrough then deniedThrough[d] else 0) {
        return Some(EpochInvalidated);
      }
      if d !in bindings && |bindings| >= BINDING_LIMIT {
        return Some(CapacityExhausted);
      }
      if e.proof != Signature(e.key, Enrolling(TranscriptOf(d, epoch, e))) {
        return Some(ProofInvalid);
      }
      if d in bindings {
        var existing := bindings[d];
        if epoch < existing.epoch {
          return Some(EpochStale);
        }
        if epoch == existing.epoch {
          if existing.key != e.key {
            return Some(KeyChanged);
          }
          if existing.requestHash != TranscriptOf(d, epoch, e) {
            return Some(AlreadyEnrolled);
          }
        }
      }
      return None;
    }

    method EnrollFromLink(d: DeviceId, epoch: int, e: Enrollment, now: real, storeOk: bool)
      returns (r: Result<Transcript, Error>)
      modifies this`bindings, this`storedBindings, this`enrollmentNonces
      ensures (Snapshot().bindings, r) == Enrolled(deniedThrough, old(Snapshot()).bindings, d, epoch, e, now, storeOk)
    {
      var error := CheckEnrollment(d, epoch, e);
      if error.Some? {
        return Failure(error.value);
      }
      if d in bindings && epoch == bindings[d].epoch {
        return Success(bindings[d].outcome);
      }
      r := StoreEnrollment(d, epoch, e, now, storeOk);
    }

    method StoreEnrollment(d: DeviceId, epoch: int, e: Enrollment, now: real, storeOk: bool)
      returns (r: Result<Transcript, Error>)
      modifies this`bindings, this`storedBindings, this`enrollmentNonces
      ensures (Snapshot().bindings, r) == Stored(old(Snapshot()).bindings, d, epoch, e, now, storeOk)
    {
      enrollmentNonces := map n | n in enrollmentNonces && enrollmentNonces[n] >= now :: enrollmentNonces[n];
      if e.nonce in enrollmentNonces {
        return Failure(NonceUsed);
      }
      if |enrollmentNonces| >= ENROLLMENT_LIMIT {
        return Failure(NonceCapacity);
      }
      ForgettingRestores(enrollmentNonces, e.nonce, now + ENROLLMENT_TTL);
      enrollmentNonces := enrollmentNonces[e.nonce := now + ENROLLMENT_TTL];
      var transcript := TranscriptOf(d, epoch, e);
      var candidate := bindings[d := Binding(epoch, e.key, transcript, transcript)];
      if !storeOk {
        enrollmentNonces := enrollmentNonces - {e.nonce};
        return Failure(StoreFailed);
      }
      storedBindings := candidate;
      bindings := candidate;
      return Success(transcript);
    }

    method IssueChallenge(d: DeviceId, epoch: int, connection: string, clientNonce: string, nonce: Nonce, now: real)
      returns (r: Result<Nonce, Error>)
      modifies this`challenges, this`issued, this`issues
      ensures (Snapshot().sessions, r) == Issued(old(Snapshot()).sessions, CurrentPeer(old(Snapshot()), d, epoch, now),
                                                 d, epoch, connection, clientNonce, nonce, now)
    {
      var binding := RequireCurrentPeer(d, epoch, now);
      if binding.Failure? {
        return Failure(binding.error);
      }
      challenges := map n | n in challenges && challenges[n].expiresAt >= now :: challenges[n];
      if |challenges| >= CHALLENGE_LIMIT {
        return Failure(ChallengeCapacity);
      }
      challenges := challenges[nonce := Challenge(d, epoch, connection, clientNonce, now + CHALLENGE_TTL)];
      issued, issues := issued + multiset{nonce}, issues[nonce := Issue(d, epoch, connection, clientNonce, now)];
      return Success(nonce);
    }

    method VerifyChallengeResponse(d: DeviceId, epoch: int, connection: string, nonce: Nonce, proof: Proof, now: real)
      returns (r: Result<Peer, Error>)
      modifies this`challenges, this`authenticated
      ensures (Snapshot().sessions, r) == Verified(old(Snapshot()).sessions, owner, CurrentPeer(old(Snapshot()), d, epoch, now),
                                                   d, epoch, connection, nonce, proof, now)
    {
      if nonce !in challenges {
        return Failure(ChallengeUnknown);
      }
      var challenge := challenges[nonce];
      challenges := challenges - {nonce};
      if challenge.expiresAt < now {
        return Failure(ChallengeExpired);
      }
      if challenge.device != d || challenge.epoch != epoch || challenge.connection != connection {
        return Failure(ContextMismatch);
      }
      var binding := RequireCurrentPeer(d, epoch, now);
      if binding.Failure? {
        return Failure(binding.error);
      }
      var transcript := SessionTranscript(owner, d, epoch, connection, nonce, challenge.clientNonce);
      if proof != Signature(binding.value.key, Opening(transcript)) {
        return Failure(ProofInvalid);
      }
      authenticated := authenticated + multiset{nonce};
      return Success(Peer(owner, d, epoch, binding.value.key));
    }
  }

  lemma SameLookups<K(!new), V>(m: map<K, V>, n: map<K, V>)
    requires forall k :: Lookup(m, k) == Lookup(n, k)
    ensures m == n
  {
    forall k ensures k in m <==> k in n {
      assert Lookup(m, k) == Lookup(n, k);
    }
    forall k | k in m ensures m[k] == n[k] {
      assert Lookup(m, k) == Lookup(n, k);
    }
  }

  // ---- Runs ----

  datatype Step =
    | Refresh(catalog: Catalog, now: real, storeOk: bool)
    | Enroll(device: DeviceId, epoch: int, enrollment: Enrollment, now: real, storeOk: bool)
    | IssueTo(device: DeviceId, epoch: int, connection: string, clientNonce: string, nonce: Nonce, now: real)
    | Verify(device: DeviceId, epoch: int, connection: string, nonce: Nonce, proof: Proof, now: real)
    | Restart

  function Apply(a: Authority, step: Step): Authority {
    match step
    case Refresh(catalog, now, storeOk) => a.(fences := Refreshed(Known(a), a.fences, catalog, now, storeOk).0)
    case Enroll(d, epoch, e, now, storeOk) =>
      a.(bindings := Enrolled(a.fences.denied, a.bindings, d, epoch, e, now, storeOk).0)
    case IssueTo(d, epoch, connection, clientNonce, nonce, now) =>
      if nonce in PruneChallenges(a.sessions.live, now) then a  // such a draw is repeated
      else a.(sessions := Issued(a.sessions, CurrentPeer(a, d, epoch, now), d, epoch, connection, clientNonce, nonce, now).0)
    case Verify(d, epoch, connection, nonce, proof, now) =>
      a.(sessions := VerifyAt(a, d, epoch, connection, nonce, proof, now).0)
    case Restart => Restarted(a)
  }

  function VerifyAt(a: Authority, d: DeviceId, epoch: int, connection: string, nonce: Nonce, proof: Proof, now: real)
    : (Sessions, Result<Peer, Error>)
  {
    Verified(a.sessions, a.owner, CurrentPeer(a, d, epoch, now), d, epoch, connection, nonce, proof, now)
  }

  function Run(a: Authority, steps: seq<Step>): Authority
    decreases |steps|
  {
    if steps == [] then a else Run(Apply(a, steps[0]), steps[1..])
  }

  ghost predicate FencesOk(f: Fences, known: set<DeviceId>) {
    // Freshness is only ever granted on fences that are persisted.
    && (f.refreshedAt.Some? ==> !f.dirty)
    && (!f.dirty ==> f.stored == f.denied)
    && f.denied.Keys <= known && f.stored.Keys <= known
  }

  ghost predicate SessionsOk(s: Sessions) {
    && |s.live| <= CHALLENGE_LIMIT
    && (forall n :: n in s.live ==>
          && s.authenticated[n] + 1 <= s.issued[n]
          && n in s.issues && s.live[n].expiresAt == s.issues[n].at + CHALLENGE_TTL
          && s.live[n].device == s.issues[n].device && s.live[n].epoch == s.issues[n].epoch
          && s.live[n].connection == s.issues[n].connection && s.live[n].clientNonce == s.issues[n].clientNonce)
    && (forall n :: s.authenticated[n] <= s.issued[n])
  }

  ghost predicate BindingsOk(b: Bindings) {
    && b.stored == b.bound && |b.bound| <= BINDING_LIMIT
    && (forall d :: d in b.bound ==>
          var x := b.bound[d];
          x.outcome == x.requestHash && x.requestHash.device == d && x.requestHash.epoch == x.epoch
          && x.requestHash.key == x.key)
  }

  ghost predicate Inv(a: Authority) {
    FencesOk(a.fences, a.bindings.bound.Keys + {a.owner.deviceId}) && SessionsOk(a.sessions) && BindingsOk(a.bindings)
  }

  // An authority just constructed over an empty store.
  ghost predicate Initial(a: Authority) {
    && a.fences == Fences(map[], map[], false, map[], None)
    && a.bindings == Bindings(map[], map[], map[])
    && a.sessions == Sessions(map[], multiset{}, map[], multiset{})
  }

  lemma SubmapSize<K, V>(small: map<K, V>, big: map<K, V>)
    requires small.Keys <= big.Keys
    ensures |small| <= |big|
  {
    Sets.SubsetSize(small.Keys, big.Keys);
    assert |small| == |small.Keys| && |big| == |big.Keys|;
  }

  lemma RefreshedOk(a: Authority, catalog: Catalog, now: real, storeOk: bool)
    requires Inv(a)
    ensures FencesOk(Refreshed(Known(a), a.fences, catalog, now, storeOk).0, a.bindings.bound.Keys + {a.owner.deviceId})
  {
  }

  lemma StoredOk(b: Bindings, d: DeviceId, epoch: int, e: Enrollment, now: real, storeOk: bool)
    requires BindingsOk(b) && (d in b.bound || |b.bound| < BINDING_LIMIT)
    ensures BindingsOk(Stored(b, d, epoch, e, now, storeOk).0)
    ensures b.bound.Keys <= Stored(b, d, epoch, e, now, storeOk).0.bound.Keys
  {
  }

  lemma IssuedOk(s: Sessions, current: Result<Binding, Error>, d: DeviceId, epoch: int, connection: string,
                 clientNonce: string, nonce: Nonce, now: real)
    requires SessionsOk(s) && nonce !in PruneChallenges(s.live, now)
    ensures SessionsOk(Issued(s, current, d, epoch, connection, clientNonce, nonce, now).0)
  {
    SubmapSize(PruneChallenges(s.live, now), s.live);
  }

  lemma SpentOk(s: Sessions, nonce: Nonce)
    requires SessionsOk(s) && nonce in s.live
    ensures var spent := s.(live := s.live - {nonce});
      SessionsOk(spent) && SessionsOk(spent.(authenticated := s.authenticated + multiset{nonce}))
  {
    SubmapSize(s.live - {nonce}, s.live);
    var authenticated := s.authenticated + multiset{nonce};
    assert forall n :: authenticated[n] == s.authenticated[n] + if n == nonce then 1 else 0;
  }

  lemma VerifiedOk(s: Sessions, owner: Owner, current: Result<Binding, Error>, d: DeviceId, epoch: int,
                   connection: string, nonce: Nonce, proof: Proof, now: real)
    requires SessionsOk(s)
    ensures SessionsOk(Verified(s, owner, current, d, epoch, connection, nonce, proof, now).0)
  {
    if nonce in s.live {
      SpentOk(s, nonce);
    }
  }

  lemma ApplyInv(a: Authority, step: Step)
    requires Inv(a)
    ensures Inv(Apply(a, step))
  {
    match step
    case Refresh(catalog, now, storeOk) => RefreshedOk(a, catalog, now, storeOk);
    case Enroll(d, epoch, e, now, storeOk) =>
      if EnrollmentError(a.fences.denied, a.bindings.bound, d, epoch, e).None? {
        StoredOk(a.bindings, d, epoch, e, now, storeOk);
      }
    case IssueTo(d, epoch, connection, clientNonce, nonce, now) =>
      if nonce !in PruneChallenges(a.sessions.live, now) {
        IssuedOk(a.sessions, CurrentPeer(a, d, epoch, now), d, epoch, connection, clientNonce, nonce, now);
      }
    case Verify(d, epoch, connection, nonce, proof, now) =>
      VerifiedOk(a.sessions, a.owner, CurrentPeer(a, d, epoch, now), d, epoch, connection, nonce, proof, now);
    case Restart =>
  }

  /**
    Capacities and conservation over every run: at most 256 bindings and 64 live challenges, never
    more authenticated peers than challenges issued under a nonce, and the fences on disk always
    within what a restart agrees to load.
  */
  lemma {:induction false} RunInv(a: Authority, steps: seq<Step>)
    requires Inv(a)
    ensures Inv(Run(a, steps)) && |Run(a, steps).fences.stored| <= FENCE_LIMIT
    decreases |steps|
  {
    if steps == [] {
      var limit := a.bindings.bound.Keys + {a.owner.deviceId};
      Sets.SubsetSize(a.fences.stored.Keys, limit);
      assert |a.bindings.bound.Keys| == |a.bindings.bound| && |a.fences.stored.Keys| == |a.fences.stored|;
      assert |limit| <= |a.bindings.bound.Keys| + 1;
    } else {
      ApplyInv(a, steps[0]);
      RunInv(Apply(a, steps[0]), steps[1..]);
    }
  }

  // ---- Revocation ----

  // The catalog no longer vouches for this device at the epoch it is known at.
  predicate Distrusted(catalog: Catalog, d: DeviceId, expected: Expected) {
    d !in catalog || Invalid(catalog[d], expected.role) || catalog[d].epoch > expected.epoch
  }

  // How far such a catalog invalidates the device: the epoch it is known at if it is missing, the later
  // of that and the catalog's if it is revoked or in the wrong role, all before the catalog's if superseded.
  function InvalidThrough(catalog: Catalog, d: DeviceId, expected: Expected): int
    requires Distrusted(catalog, d, expected)
  {
    if d !in catalog then expected.epoch
    else if !Invalid(catalog[d], expected.role) then catalog[d].epoch - 1
    else Max(expected.epoch, catalog[d].epoch)
  }

  /**
    A refresh that finds a known device missing, revoked, in the wrong role or superseded raises its
    fence in memory at once to exactly what the catalog invalidates, its bound epoch included, and
    touches no fence for a device the catalog vouches for; unless the refresh reports that the store
    failed, the fences on disk are then the same.
  */
  lemma RefreshFences(a: Authority, catalog: Catalog, now: real, storeOk: bool, d: DeviceId)
    requires Inv(a) && d in Known(a)
    ensures var (f, error) := Refreshed(Known(a), a.fences, catalog, now, storeOk);
      var expected := Known(a)[d];
      && (Distrusted(catalog, d, expected) ==>
            && InvalidThrough(catalog, d, expected) >= expected.epoch
            && Floor(f.denied, d) == Max(Floor(a.fences.denied, d), InvalidThrough(catalog, d, expected)))
      && (!Distrusted(catalog, d, expected) ==> Floor(f.denied, d) == Floor(a.fences.denied, d))
      && (error != Some(StoreFailed) ==> f.stored == f.denied)
  {
    FloorRaised(Known(a), a.fences.denied, catalog, d);
    hide Floors, Distrusted, InvalidThrough, SomeRollBack, SessionsOk, BindingsOk, Installed;
    var floors := Floors(Known(a), a.fences.denied, catalog);
    InstalledFloors(a.fences, floors, SomeRollBack(Known(a), floors, catalog), catalog, now, storeOk);
  }

  lemma FloorRaised(known: map<DeviceId, Expected>, denied: map<DeviceId, int>, catalog: Catalog, d: DeviceId)
    requires d in known
    ensures var floors := Floors(known, denied, catalog);
      if Distrusted(catalog, d, known[d])
      then InvalidThrough(catalog, d, known[d]) >= known[d].epoch
           && Floor(floors, d) == Max(Floor(denied, d), InvalidThrough(catalog, d, known[d]))
      else Floor(floors, d) == Floor(denied, d)
  {
    FloorsPointwise(known, denied, catalog, d);
    hide Floors;
  }

  // The catalog vouches for this device, in the role it is known in.
  predicate VouchedFor(catalog: Catalog, d: DeviceId, expected: Expected) {
    d in catalog && catalog[d].active && catalog[d].revokedAt.None? && catalog[d].role == expected.role
  }

  /**
    When a refresh counts as fresh. It fails to store only if there was something to store; otherwise it
    succeeds exactly if every known device the catalog vouches for is above its fence. Success installs
    the catalog as of now; any error leaves the authority without freshness and with its old catalog.
  */
  lemma RefreshIsFreshIff(a: Authority, catalog: Catalog, now: real, storeOk: bool)
    requires Inv(a)
    ensures var (f, error) := Refreshed(Known(a), a.fences, catalog, now, storeOk);
      && (error == Some(StoreFailed) <==> !storeOk && (a.fences.dirty || f.denied != a.fences.denied))
      && (error != Some(StoreFailed) ==>
            (error.None? <==> forall d :: d in Known(a) && VouchedFor(catalog, d, Known(a)[d]) ==> catalog[d].epoch > Floor(f.denied, d)))
      && (error.None? ==> f.refreshedAt == Some(now) && f.devices == catalog)
      && (error.Some? ==> f.refreshedAt.None? && f.devices == a.fences.devices)
  {
    var floors := Floors(Known(a), a.fences.denied, catalog);
    hide Floors, Inv, FencesOk, SessionsOk, BindingsOk;
    RollBackMeans(Known(a), floors, catalog);
    hide SomeRollBack;
    assert Refreshed(Known(a), a.fences, catalog, now, storeOk).0.denied == floors;
  }

  lemma RollBackMeans(known: map<DeviceId, Expected>, floors: map<DeviceId, int>, catalog: Catalog)
    ensures !SomeRollBack(known, floors, catalog)
            <==> forall d :: d in known && VouchedFor(catalog, d, known[d]) ==> catalog[d].epoch > Floor(floors, d)
  {
    forall d ensures RollsBack(known, floors, catalog, d)
                     <==> d in known && VouchedFor(catalog, d, known[d]) && catalog[d].epoch <= Floor(floors, d) {
    }
  }

  /** In one process no fence is ever lowered, whatever catalogs follow and even when no store succeeds. */
  lemma {:induction false} FencesOnlyRiseInProcess(a: Authority, steps: seq<Step>, d: DeviceId)
    requires Restart !in steps
    ensures Floor(Run(a, steps).fences.denied, d) >= Floor(a.fences.denied, d)
    decreases |steps|
  {
    if steps != [] {
      assert steps[0] in steps;
      if steps[0].Refresh? {
        FloorsPointwise(Known(a), a.fences.denied, steps[0].catalog, d);
      }
      FencesOnlyRiseInProcess(Apply(a, steps[0]), steps[1..], d);
    }
  }

  // Nothing succeeds for this device at or below this epoch.
  ghost predicate Refuses(a: Authority, d: DeviceId, fence: int) {
    && (forall epoch, now :: epoch <= fence ==> CurrentPeer(a, d, epoch, now).Failure?)
    && (forall epoch, key, now :: epoch <= fence ==> ValidatedPeer(a, Peer(a.owner, d, epoch, key), now).Failure?)
    && (forall epoch, connection, clientNonce, nonce, now :: epoch <= fence ==>
          Issued(a.sessions, CurrentPeer(a, d, epoch, now), d, epoch, connection, clientNonce, nonce, now).1.Failure?)
    && (forall epoch, connection, nonce, proof, now :: epoch <= fence ==>
          VerifyAt(a, d, epoch, connection, nonce, proof, now).1.Failure?)
    && (forall epoch, e, now, storeOk :: epoch <= fence ==>
          Enrolled(a.fences.denied, a.bindings, d, epoch, e, now, storeOk).1.Failure?)
  }

  lemma FencedIsRefused(a: Authority, d: DeviceId, fence: int)
    requires Floor(a.fences.denied, d) >= fence
    ensures Refuses(a, d, fence)
  {
  }

  lemma {:induction false} PersistedFenceHolds(a: Authority, steps: seq<Step>, d: DeviceId, fence: int)
    requires Floor(a.fences.denied, d) >= fence && Floor(a.fences.stored, d) >= fence
    ensures Floor(Run(a, steps).fences.denied, d) >= fence && Run(a, steps).owner == a.owner
    decreases |steps|
  {
    if steps != [] {
      if steps[0].Refresh? {
        FloorsPointwise(Known(a), a.fences.denied, steps[0].catalog, d);
      }
      PersistedFenceHolds(Apply(a, steps[0]), steps[1..], d, fence);
    }
  }

  /**
    Permanent revocation: once a refresh did not fail to store, every later attempt for any device at or
    below the fence it left is refused - over every continuation, restarts and contrary catalogs
    included. For a device the refresh distrusted that fence covers all the catalog invalidates, so an
    enrollment between its bound epoch and the catalog's is refused too.
  */
  lemma RevocationIsPermanent(a: Authority, catalog: Catalog, now: real, storeOk: bool, d: DeviceId, steps: seq<Step>)
    requires Inv(a) && Refreshed(Known(a), a.fences, catalog, now, storeOk).1 != Some(StoreFailed)
    ensures var a' := Apply(a, Refresh(catalog, now, storeOk));
      && Refuses(Run(a', steps), d, Floor(a'.fences.denied, d))
      && (d in Known(a) && Distrusted(catalog, d, Known(a)[d]) ==>
            Refuses(Run(a', steps), d, InvalidThrough(catalog, d, Known(a)[d])))
  {
    hide Floors, Distrusted, InvalidThrough, SomeRollBack, SessionsOk, BindingsOk, Installed, Refuses, Run;
    var a' := Apply(a, Refresh(catalog, now, storeOk));
    var floors := Floors(Known(a), a.fences.denied, catalog);
    InstalledFloors(a.fences, floors, SomeRollBack(Known(a), floors, catalog), catalog, now, storeOk);
    var fence := Floor(a'.fences.denied, d);
    PersistedFenceHolds(a', steps, d, fence);
    FencedIsRefused(Run(a', steps), d, fence);
    if d in Known(a) && Distrusted(catalog, d, Known(a)[d]) {
      RefreshFences(a, catalog, now, storeOk, d);
      FencedIsRefused(Run(a', steps), d, InvalidThrough(catalog, d, Known(a)[d]));
    }
  }

  /** A fenced host admits nobody, ever again. */
  lemma FencedHostAdmitsNobody(a: Authority, catalog: Catalog, now: real, storeOk: bool, steps: seq<Step>,
                               d: DeviceId, epoch: int, later: real)
    requires Inv(a) && Distrusted(catalog, a.owner.deviceId, Expected(Host, a.owner.epoch))
    requires Refreshed(Known(a), a.fences, catalog, now, storeOk).1 != Some(StoreFailed)
    ensures CurrentPeer(Run(Apply(a, Refresh(catalog, now, storeOk)), steps), d, epoch, later).Failure?
  {
    RefreshFences(a, catalog, now, storeOk, a.owner.deviceId);
    PersistedFenceHolds(Apply(a, Refresh(catalog, now, storeOk)), steps, a.owner.deviceId, a.owner.epoch);
  }

  /**
    With restarts in the run, a fence is permanent if and only if it is on disk: one that could not be
    persisted lasts exactly until the process ends.
  */
  lemma FenceIsPermanentIffPersisted(a: Authority, d: DeviceId, fence: int)
    requires Floor(a.fences.denied, d) >= fence
    ensures (forall steps: seq<Step> :: Floor(Run(a, steps).fences.denied, d) >= fence)
            <==> Floor(a.fences.stored, d) >= fence
  {
    if Floor(a.fences.stored, d) >= fence {
      forall steps: seq<Step> ensures Floor(Run(a, steps).fences.denied, d) >= fence {
        PersistedFenceHolds(a, steps, d, fence);
      }
    } else {
      assert [Restart][1..] == [];
      assert Run(a, [Restart]) == Run(Apply(a, Restart), [Restart][1..]) == Restarted(a);
      assert Floor(Run(a, [Restart]).fences.denied, d) < fence;
    }
  }

  /** No decision rests on a fence a restart would forget: every success finds disk and memory equal. */
  lemma SuccessImpliesPersisted(a0: Authority, steps: seq<Step>, d: DeviceId, epoch: int, now: real)
    requires Initial(a0)
    ensures var a := Run(a0, steps);
      CurrentPeer(a, d, epoch, now).Success? ==>
        a.fences.stored == a.fences.denied && epoch > Floor(a.fences.stored, d)
        && a.owner.epoch > Floor(a.fences.stored, a.owner.deviceId)
  {
    RunInv(a0, steps);
  }

  // Revoked by one catalog whose fence was not stored, restarted, and let in by another catalog.
  ghost predicate Readmits(a: Authority, revoking: Catalog, stale: Catalog, d: DeviceId) {
    && Inv(a) && d in Known(a) && Distrusted(revoking, d, Known(a)[d])
    && var later := Apply(Apply(Apply(a, Refresh(revoking, 0.0, false)), Restart), Refresh(stale, 1.0, true));
    CurrentPeer(later, d, Known(a)[d].epoch, 2.0).Success?
  }

  /**
    The case the previous results exclude: a revocation whose store fails is forgotten by a restart,
    and a stale catalog then lets the revoked phone in again.
  */
  lemma UnpersistedRevocationIsForgotten()
    ensures exists a: Authority, revoking: Catalog, stale: Catalog, d :: Readmits(a, revoking, stale, d)
  {
    var a := OnePhone();
    var revoking, stale := Catalogs();
    StaleCatalogAccepted(a, Known(a), stale);
    ForgottenThenAccepted(a, revoking, stale);
  }

  lemma Catalogs() returns (revoking: Catalog, stale: Catalog)
    ensures "phone" !in revoking
    ensures stale == map["host" := Device(Host, true, 1, None), "phone" := Device(Mobile, true, 1, None)]
  {
    revoking := map["host" := Device(Host, true, 1, None)];
    stale := map["host" := Device(Host, true, 1, None), "phone" := Device(Mobile, true, 1, None)];
  }

  // A host with one enrolled phone and no fence.
  lemma OnePhone() returns (a: Authority)
    ensures Inv(a) && a.owner == Owner("host", 1) && a.fences == Fences(map[], map[], false, map[], None)
    ensures a.bindings.bound == a.bindings.stored && a.bindings.nonces == map[] && a.sessions.live == map[]
    ensures "phone" in a.bindings.bound && a.bindings.bound["phone"].epoch == 1
    ensures Known(a) == map["phone" := Expected(Mobile, 1), "host" := Expected(Host, 1)]
  {
    var t := Transcript("phone", 1, "x", "n", "k");
    var bound := map["phone" := Binding(1, "k", t, t)];
    a := Authority(Owner("host", 1), Fences(map[], map[], false, map[], None), Bindings(bound, bound, map[]),
                   Sessions(map[], multiset{}, map[], multiset{}));
  }

  lemma ForgottenThenAccepted(a: Authority, revoking: Catalog, stale: Catalog)
    requires Inv(a) && a.fences == Fences(map[], map[], false, map[], None) && a.bindings.bound == a.bindings.stored
    requires a.bindings.nonces == map[] && a.sessions.live == map[]
    requires "phone" in Known(a) && Known(a)["phone"].epoch == 1 && "phone" !in revoking
    requires CurrentPeer(Apply(a, Refresh(stale, 1.0, true)), "phone", 1, 2.0).Success?
    ensures Readmits(a, revoking, stale, "phone")
  {
    FailedStoreIsForgotten(a, revoking);
  }

  lemma FailedStoreIsForgotten(a: Authority, revoking: Catalog)
    requires a.fences == Fences(map[], map[], false, map[], None) && a.bindings.bound == a.bindings.stored
    requires a.bindings.nonces == map[] && a.sessions.live == map[]
    requires "phone" in Known(a) && Known(a)["phone"].epoch == 1 && "phone" !in revoking
    ensures Apply(Apply(a, Refresh(revoking, 0.0, false)), Restart) == a
  {
    FloorsPointwise(Known(a), map[], revoking, "phone");
  }

  lemma StaleCatalogAccepted(a: Authority, known: map<DeviceId, Expected>, stale: Catalog)
    requires a.owner == Owner("host", 1) && a.fences == Fences(map[], map[], false, map[], None)
    requires "phone" in a.bindings.bound && a.bindings.bound["phone"].epoch == 1 && Known(a) == known
    requires known == map["phone" := Expected(Mobile, 1), "host" := Expected(Host, 1)]
    requires stale == map["host" := Device(Host, true, 1, None), "phone" := Device(Mobile, true, 1, None)]
    ensures CurrentPeer(Apply(a, Refresh(stale, 1.0, true)), "phone", 1, 2.0).Success?
  {
    var floors := Floors(known, map[], stale);
    FloorsPointwise(known, map[], stale, "phone");
    FloorsPointwise(known, map[], stale, "host");
    assert floors == map[];
    assert !SomeRollBack(known, floors, stale);
    assert Installed(a.fences, floors, false, stale, 1.0, true).0 == Fences(map[], map[], false, stale, Some(1.0));
  }

  // ---- Enrollment is write-once ----

  // A device's binding moves only to a later epoch, and never changes at the same one.
  predicate WriteOnce(before: map<DeviceId, Binding>, after: map<DeviceId, Binding>) {
    forall d :: d in before ==>
      d in after && before[d].epoch <= after[d].epoch && (before[d].epoch == after[d].epoch ==> before[d] == after[d])
  }

  /** Over every run, restarts included. */
  lemma {:induction false} EnrollmentIsWriteOnce(a: Authority, steps: seq<Step>)
    requires Inv(a)
    ensures WriteOnce(a.bindings.bound, Run(a, steps).bindings.bound)
    decreases |steps|
  {
    if steps != [] {
      ApplyInv(a, steps[0]);
      StepIsWriteOnce(a, steps[0]);
      EnrollmentIsWriteOnce(Apply(a, steps[0]), steps[1..]);
    }
  }

  lemma StepIsWriteOnce(a: Authority, step: Step)
    requires BindingsOk(a.bindings)
    ensures WriteOnce(a.bindings.bound, Apply(a, step).bindings.bound)
  {
  }

  /** An enrollment that fails, by a failed store or otherwise, leaves every binding as it was. */
  lemma FailedEnrollmentBindsNothing(a: Authority, d: DeviceId, epoch: int, e: Enrollment, now: real, storeOk: bool)
    ensures var (b, r) := Enrolled(a.fences.denied, a.bindings, d, epoch, e, now, storeOk);
      r.Failure? ==> b.bound == a.bindings.bound && b.stored == a.bindings.stored
  {
  }

  /**
    Repeating an enrollment that succeeded returns the very same outcome and changes nothing, exactly
    as long as the device is still bound at that epoch and the epoch is not fenced; after that it is
    refused.
  */
  lemma RepeatedEnrollment(a: Authority, d: DeviceId, epoch: int, e: Enrollment, now: real, storeOk: bool,
                           steps: seq<Step>, now': real, storeOk': bool)
    requires Inv(a) && Enrolled(a.fences.denied, a.bindings, d, epoch, e, now, storeOk).1.Success?
    ensures var r := Enrolled(a.fences.denied, a.bindings, d, epoch, e, now, storeOk).1;
      var b := Run(Apply(a, Enroll(d, epoch, e, now, storeOk)), steps);
      && d in b.bindings.bound
      && Enrolled(b.fences.denied, b.bindings, d, epoch, e, now', storeOk') ==
         (b.bindings,
          if epoch <= Floor(b.fences.denied, d) then Failure(EpochInvalidated)
          else if epoch < b.bindings.bound[d].epoch then Failure(EpochStale)
          else r)
  {
    hide Run, FencesOk, SessionsOk;
    ApplyInv(a, Enroll(d, epoch, e, now, storeOk));
    EnrollmentIsWriteOnce(Apply(a, Enroll(d, epoch, e, now, storeOk)), steps);
  }

  // ---- Who is current ----

  // The catalog has this device active in its role, at exactly this epoch.
  predicate ListedAt(devices: Catalog, d: DeviceId, role: Role, epoch: int) {
    d in devices && devices[d].active && devices[d].revokedAt.None? && devices[d].role == role && devices[d].epoch == epoch
  }

  /**
    A peer is current if and only if the catalog was refreshed within the last 300 seconds, neither host
    nor peer is fenced at its epoch, the catalog lists both at these epochs, and the device is bound at
    this one; what is returned is that binding. A principal is valid if and only if moreover it names this
    host at its epoch and the bound key, and is returned as it is.
  */
  lemma CurrentPeerIff(a: Authority, d: DeviceId, epoch: int, now: real, peer: Peer)
    ensures var r := CurrentPeer(a, d, epoch, now);
      && (r.Success? <==>
            && a.fences.refreshedAt.Some? && now <= a.fences.refreshedAt.value + 300.0
            && a.owner.epoch > Floor(a.fences.denied, a.owner.deviceId) && epoch > Floor(a.fences.denied, d)
            && ListedAt(a.fences.devices, a.owner.deviceId, Host, a.owner.epoch) && ListedAt(a.fences.devices, d, Mobile, epoch)
            && d in a.bindings.bound && a.bindings.bound[d].epoch == epoch)
      && (r.Success? ==> r.value == a.bindings.bound[d])
    ensures ValidatedPeer(a, peer, now).Success? <==>
              && peer.owner == a.owner && CurrentPeer(a, peer.device, peer.epoch, now).Success?
              && a.bindings.bound[peer.device].key == peer.key
    ensures ValidatedPeer(a, peer, now).Success? ==> ValidatedPeer(a, peer, now).value == peer
  {
  }

  /**
    A new process trusts nobody before it has read the catalog, and then everybody it trusted on disk: a device
    whose binding and whose freedom from fences are stored is current again after the first refresh that
    succeeds and lists it and the host at their epochs.
  */
  lemma RestartKeepsEnrollments(a: Authority, catalog: Catalog, now: real, d: DeviceId, later: real)
    requires Inv(a) && now <= later <= now + 300.0 && d in a.bindings.stored
    ensures CurrentPeer(Restarted(a), d, a.bindings.stored[d].epoch, later).Failure?
    ensures var b := Apply(Restarted(a), Refresh(catalog, now, true)); var epoch := a.bindings.stored[d].epoch;
      b.fences.refreshedAt.Some? && ListedAt(catalog, a.owner.deviceId, Host, a.owner.epoch) && ListedAt(catalog, d, Mobile, epoch)
      && a.owner.epoch > Floor(b.fences.denied, a.owner.deviceId) && epoch > Floor(b.fences.denied, d) ==>
        CurrentPeer(b, d, epoch, later) == Success(a.bindings.stored[d])
  {
    var b0 := Restarted(a);
    var b := Apply(b0, Refresh(catalog, now, true));
    var floors := Floors(Known(b0), b0.fences.denied, catalog);
    InstalledFloors(b0.fences, floors, SomeRollBack(Known(b0), floors, catalog), catalog, now, true);
    hide Floors, SomeRollBack, Known;
  }

  // ---- What an enrollment needs ----

  function Unexpired(nonces: map<Nonce, real>, now: real): set<Nonce> { set n | n in nonces && nonces[n] >= now }

  // The request is signed by the key it offers, for this device and epoch, and not fenced.
  predicate IsSigned(denied: map<DeviceId, int>, d: DeviceId, epoch: int, e: Enrollment) {
    && epoch > Floor(denied, d)
    && e.proof == Signature(e.key, Enrolling(Transcript(d, epoch, e.exchangeId, e.nonce, e.key)))
  }

  /**
    An enrollment succeeds if and only if it is signed and not fenced, and either repeats the request the
    device is bound by at this epoch, or is for a later epoch than any it is bound at, within 256 devices,
    with a nonce unused for 300 seconds, and the store works. Only then does it bind: this key and request,
    for this device alone, in memory and on disk, with its nonce used up.
  */
  lemma EnrolledIff(denied: map<DeviceId, int>, b: Bindings, d: DeviceId, epoch: int, e: Enrollment, now: real, storeOk: bool)
    ensures var (b', r) := Enrolled(denied, b, d, epoch, e, now, storeOk);
      var t := Transcript(d, epoch, e.exchangeId, e.nonce, e.key);
      var repeats := d in b.bound && b.bound[d].epoch == epoch && b.bound[d].key == e.key && b.bound[d].requestHash == t;
      var binds := (if d in b.bound then b.bound[d].epoch < epoch else |b.bound| < 256)
                   && e.nonce !in Unexpired(b.nonces, now) && |Unexpired(b.nonces, now)| < 256 && storeOk;
      && (r.Success? <==> IsSigned(denied, d, epoch, e) && (repeats || binds))
      && (r.Success? && repeats ==> b' == b && r.value == b.bound[d].outcome)
      && (r.Success? && !repeats ==>
            && b'.bound == b'.stored == b.bound[d := Binding(epoch, e.key, t, t)] && r.value == t
            && e.nonce in b'.nonces && b'.nonces[e.nonce] == now + 300.0
            && forall n :: n in Unexpired(b.nonces, now) ==> n in b'.nonces && b'.nonces[n] == b.nonces[n])
      && (r.Failure? ==> b'.bound == b.bound && b'.stored == b.stored)
  {
    var pruned := PruneNonces(b.nonces, now);
    assert pruned.Keys == Unexpired(b.nonces, now) && |pruned| == |pruned.Keys|;
  }

  // Nothing here happens after this time, and no process ends.
  predicate Until(steps: seq<Step>, time: real) {
    forall i :: 0 <= i < |steps| ==> !steps[i].Restart? && (steps[i].Enroll? ==> steps[i].now <= time)
  }

  lemma {:induction false} NonceStaysUsed(a: Authority, steps: seq<Step>, nonce: Nonce, time: real)
    requires nonce in a.bindings.nonces && a.bindings.nonces[nonce] == time && Until(steps, time)
    ensures var nonces := Run(a, steps).bindings.nonces; nonce in nonces && nonces[nonce] == time
    decreases |steps|
  {
    if steps != [] {
      NonceStaysUsed(Apply(a, steps[0]), steps[1..], nonce, time);
    }
  }

  /** A nonce enrolls once: for 300 seconds no other request with it binds anything, while the process lives. */
  lemma EnrollmentNonceIsSpent(a: Authority, d: DeviceId, epoch: int, e: Enrollment, now: real, steps: seq<Step>,
                               d': DeviceId, epoch': int, e': Enrollment, later: real, storeOk: bool)
    requires var (b, r) := Enrolled(a.fences.denied, a.bindings, d, epoch, e, now, true); r.Success? && b.bound != a.bindings.bound
    requires Until(steps, now + 300.0) && later <= now + 300.0 && e'.nonce == e.nonce
    ensures var a' := Run(Apply(a, Enroll(d, epoch, e, now, true)), steps);
      Enrolled(a'.fences.denied, a'.bindings, d', epoch', e', later, storeOk).0.bound == a'.bindings.bound
  {
    EnrolledIff(a.fences.denied, a.bindings, d, epoch, e, now, true);
    var a1 := Apply(a, Enroll(d, epoch, e, now, true));
    assert a1.bindings == Enrolled(a.fences.denied, a.bindings, d, epoch, e, now, true).0;
    hide Apply, Run, Enrolled;
    NonceStaysUsed(a1, steps, e.nonce, now + 300.0);
    var a' := Run(a1, steps);
    EnrolledIff(a'.fences.denied, a'.bindings, d', epoch', e', later, storeOk);
  }

  // ---- Challenges are one-use ----

  /**
    A challenge is issued if and only if the peer is current and fewer than 64 unexpired ones are live; it
    lives 30 seconds. A response succeeds if and only if its nonce is live and unexpired, for this device,
    epoch and connection, the peer is current, and its bound key signed exactly this exchange. Whatever the
    answer, the nonce is gone and every other challenge stays.
  */
  lemma ChallengeIff(a: Authority, d: DeviceId, epoch: int, connection: string, clientNonce: string, nonce: Nonce, proof: Proof, now: real)
    ensures var current := CurrentPeer(a, d, epoch, now);
      var (s, r) := Issued(a.sessions, current, d, epoch, connection, clientNonce, nonce, now);
      && (r.Success? <==> current.Success? && |set n | n in a.sessions.live && a.sessions.live[n].expiresAt >= now| < 64)
      && (r.Success? ==> r.value == nonce && nonce in s.live
                         && s.live[nonce] == Challenge(d, epoch, connection, clientNonce, now + 30.0))
      && (forall n :: n in a.sessions.live && a.sessions.live[n].expiresAt >= now && n != nonce ==>
            n in s.live && s.live[n] == a.sessions.live[n])
    ensures var current := CurrentPeer(a, d, epoch, now);
      var (s, r) := VerifyAt(a, d, epoch, connection, nonce, proof, now);
      && (r.Success? <==>
            && nonce in a.sessions.live && current.Success?
            && var c := a.sessions.live[nonce];
            && now <= c.expiresAt && (c.device, c.epoch, c.connection) == (d, epoch, connection)
            && proof == Signature(current.value.key, Opening(SessionTranscript(a.owner, d, epoch, connection, nonce, c.clientNonce))))
      && (r.Success? ==> r.value == Peer(a.owner, d, epoch, current.value.key))
      && s.live == a.sessions.live - {nonce}
  {
    hide CurrentPeer;
    var live := PruneChallenges(a.sessions.live, now);
    assert live.Keys == (set n | n in a.sessions.live && a.sessions.live[n].expiresAt >= now) && |live| == |live.Keys|;
  }

  // Nothing in these steps answers this challenge, draws its nonce, outlives it or ends the process.
  predicate LeavesAlone(steps: seq<Step>, nonce: Nonce, expiry: real) {
    forall i :: 0 <= i < |steps| ==>
      && !steps[i].Restart? && (steps[i].Verify? ==> steps[i].nonce != nonce)
      && (steps[i].IssueTo? ==> steps[i].nonce != nonce && steps[i].now <= expiry)
  }

  lemma {:induction false} ChallengeWaits(a: Authority, steps: seq<Step>, nonce: Nonce)
    requires nonce in a.sessions.live && LeavesAlone(steps, nonce, a.sessions.live[nonce].expiresAt)
    ensures var live := Run(a, steps).sessions.live; nonce in live && live[nonce] == a.sessions.live[nonce]
    ensures Run(a, steps).owner == a.owner
    decreases |steps|
  {
    if steps != [] {
      ChallengeWaits(Apply(a, steps[0]), steps[1..], nonce);
    }
  }

  /**
    A challenge that was issued can be answered: whatever else happens within its 30 seconds, the holder of
    the key bound by then, still current, opens the session with one signature.
  */
  lemma IssuedCanBeAnswered(a: Authority, d: DeviceId, epoch: int, connection: string, clientNonce: string, nonce: Nonce,
                            now: real, steps: seq<Step>, later: real)
    requires nonce !in PruneChallenges(a.sessions.live, now)
    requires Issued(a.sessions, CurrentPeer(a, d, epoch, now), d, epoch, connection, clientNonce, nonce, now).1.Success?
    requires LeavesAlone(steps, nonce, now + 30.0) && later <= now + 30.0
    requires var a' := Run(Apply(a, IssueTo(d, epoch, connection, clientNonce, nonce, now)), steps); CurrentPeer(a', d, epoch, later).Success?
    ensures var a' := Run(Apply(a, IssueTo(d, epoch, connection, clientNonce, nonce, now)), steps);
      var key := CurrentPeer(a', d, epoch, later).value.key;
      var proof := Signature(key, Opening(SessionTranscript(a.owner, d, epoch, connection, nonce, clientNonce)));
      VerifyAt(a', d, epoch, connection, nonce, proof, later).1 == Success(Peer(a.owner, d, epoch, key))
  {
    ChallengeIff(a, d, epoch, connection, clientNonce, nonce, Unreadable, now);
    var a1 := Apply(a, IssueTo(d, epoch, connection, clientNonce, nonce, now));
    hide CurrentPeer;
    ChallengeWaits(a1, steps, nonce);
    var a' := Run(a1, steps);
    var key := CurrentPeer(a', d, epoch, later).value.key;
    hide Run, Apply, VerifyAt;
    ChallengeIff(a', d, epoch, connection, clientNonce, nonce,
                 Signature(key, Opening(SessionTranscript(a.owner, d, epoch, connection, nonce, clientNonce))), later);
  }

  /**
    What a successful verification proves, in every reachable state: the nonce was issued to this very
    device, epoch and connection at most 30 seconds ago and is spent now, the catalog is fresh, and the
    key bound at that epoch signed this very exchange, the nonce the peer chose included.
  */
  lemma VerifiedMeansIssued(a0: Authority, steps: seq<Step>, d: DeviceId, epoch: int, connection: string, nonce: Nonce,
                            proof: Proof, now: real)
    requires Initial(a0) && VerifyAt(Run(a0, steps), d, epoch, connection, nonce, proof, now).1.Success?
    ensures var a := Run(a0, steps);
      var (s, r) := VerifyAt(a, d, epoch, connection, nonce, proof, now);
      var issues := a.sessions.issues;
      && nonce in issues && issues[nonce].device == d && issues[nonce].epoch == epoch
      && issues[nonce].connection == connection && now <= issues[nonce].at + CHALLENGE_TTL
      && nonce !in s.live && s.authenticated[nonce] <= s.issued[nonce]
      && a.fences.refreshedAt.Some? && now <= a.fences.refreshedAt.value + LIFECYCLE_TTL
      && d in a.bindings.bound && a.bindings.bound[d].epoch == epoch
      && proof == SessionProof(a.owner, a.bindings.bound[d].key, d, epoch, connection, nonce, issues[nonce].clientNonce)
      && r.value == Peer(a.owner, d, epoch, a.bindings.bound[d].key)
  {
    RunInv(a0, steps);
    var a := Run(a0, steps);
    VerifiedOk(a.sessions, a.owner, CurrentPeer(a, d, epoch, now), d, epoch, connection, nonce, proof, now);
  }

  /** A proof opens the one session it was made for: accepted twice, by any authority, it answered the same challenge both times. */
  lemma ProofIsForOneChallenge(a: Authority, d: DeviceId, epoch: int, connection: string, nonce: Nonce, proof: Proof, now: real,
                               b: Authority, d': DeviceId, epoch': int, connection': string, nonce': Nonce, now': real)
    requires VerifyAt(a, d, epoch, connection, nonce, proof, now).1.Success?
    requires VerifyAt(b, d', epoch', connection', nonce', proof, now').1.Success?
    ensures (a.owner, d, epoch, connection, nonce) == (b.owner, d', epoch', connection', nonce')
    ensures a.sessions.live[nonce].clientNonce == b.sessions.live[nonce].clientNonce
  {
    hide CurrentPeer;
  }

  /** One challenge never yields a second peer: after any verification of it, only issuing the nonce anew could. */
  lemma ChallengeIsSpent(a: Authority, d: DeviceId, epoch: int, connection: string, nonce: Nonce, proof: Proof,
                         now: real, steps: seq<Step>)
    requires forall i :: 0 <= i < |steps| && steps[i].IssueTo? ==> steps[i].nonce != nonce
    ensures var a' := Apply(a, Verify(d, epoch, connection, nonce, proof, now));
      && nonce !in Run(a', steps).sessions.live
      && Run(a', steps).sessions.authenticated[nonce] == a'.sessions.authenticated[nonce]
      && a'.sessions.authenticated[nonce] <= a.sessions.authenticated[nonce] + 1
  {
    SpentStaysSpent(Apply(a, Verify(d, epoch, connection, nonce, proof, now)), nonce, steps);
  }

  lemma {:induction false} SpentStaysSpent(a: Authority, nonce: Nonce, steps: seq<Step>)
    requires nonce !in a.sessions.live
    requires forall i :: 0 <= i < |steps| && steps[i].IssueTo? ==> steps[i].nonce != nonce
    ensures nonce !in Run(a, steps).sessions.live
    ensures Run(a, steps).sessions.authenticated[nonce] == a.sessions.authenticated[nonce]
    decreases |steps|
  {
    if steps != [] {
      SpentStaysSpent(Apply(a, steps[0]), nonce, steps[1..]);
    }
  }
}
