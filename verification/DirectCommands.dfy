/**
  The admission journal of authenticated direct commands: one table shared by every process on the
  host, and per process the capabilities that let it complete what it admitted. Transactions are
  atomic; `Tables` says what each does to the table, and the class runs them statement by statement.
*/
module DirectCommands {
  import opened Wrappers

  type ProcessId = nat
  type CapabilityId = nat
  type Digest = string

  const MAX_BODY_BYTES := 512 * 1024
  const REQUEST_PAST_SECONDS := 24 * 60 * 60
  const REQUEST_FUTURE_SECONDS := 60
  const RECORD_TTL_SECONDS := REQUEST_PAST_SECONDS + REQUEST_FUTURE_SECONDS
  const METADATA_OVERHEAD_BYTES := 256

  // The primary key: origin, host and peer coordinates with their epochs, and the command id.
  // Text columns are carried as UTF-8 byte sequences.
  type Bytes = seq<bv8>
  datatype Key = Key(
    accountOrigin: Bytes, hostDeviceId: Bytes, hostEpoch: int, peerDeviceId: Bytes, peerEpoch: int, commandId: Bytes)

  datatype State = Admitted | Completed(result: Bytes)

  datatype Row = Row(key: Key, issuedAt: int, digest: Digest, state: State, owner: ProcessId, expiresAt: int, reserved: int)

  datatype Limits = Limits(entries: int, bytes: int)

  // What a caller of admit learns about its command.
  datatype Seen = IsNew | SeenAdmitted | SeenUncertain | SeenCompleted(result: Bytes)

  datatype Error = TooFarInFuture | Expired | Conflict | EntriesExhausted | BytesExhausted | NotOwned | StaleAdmission

  datatype Admission = Admission(key: Key, issuedAt: int, digest: Digest, owner: ProcessId)

  function MetadataBytes(k: Key): int {
    METADATA_OVERHEAD_BYTES + |k.accountOrigin| + |k.hostDeviceId| + |k.peerDeviceId| + |k.commandId|
  }

  // ---- The table as a value ----

  // DELETE ... WHERE expires_at <= now
  function Purge(rows: seq<Row>, now: int): seq<Row> {
    if rows == [] then []
    else if rows[0].expiresAt <= now then Purge(rows[1..], now)
    else [rows[0]] + Purge(rows[1..], now)
  }

  // The position of the row with this key, or the row count.
  function Find(rows: seq<Row>, k: Key): (i: nat)
    ensures i <= |rows|
    ensures i < |rows| ==> rows[i].key == k
    ensures forall j :: 0 <= j < i ==> rows[j].key != k
  {
    if rows == [] || rows[0].key == k then 0 else 1 + Find(rows[1..], k)
  }

  function Reserved(rows: seq<Row>): int {
    if rows == [] then 0 else rows[0].reserved + Reserved(rows[1..])
  }

  function WindowError(issuedAt: int, now: int): Option<Error> {
    if issuedAt > now + REQUEST_FUTURE_SECONDS then Some(TooFarInFuture)
    else if issuedAt < now - REQUEST_PAST_SECONDS then Some(Error.Expired)
    else None
  }

  function NewRow(k: Key, issuedAt: int, digest: Digest, owner: ProcessId): Row {
    Row(k, issuedAt, digest, State.Admitted, owner, issuedAt + RECORD_TTL_SECONDS, MetadataBytes(k) + MAX_BODY_BYTES)
  }

  function SeenAs(row: Row, owner: ProcessId): Seen {
    match row.state
    case Completed(result) => SeenCompleted(result)
    case Admitted => if row.owner == owner then SeenAdmitted else SeenUncertain
  }

  // A transaction that raises is rolled back, its purge included.
  function Admit(rows: seq<Row>, limits: Limits, owner: ProcessId, k: Key, issuedAt: int, digest: Digest, now: int)
    : (seq<Row>, Result<Seen, Error>)
  {
    if WindowError(issuedAt, now).Some? then (rows, Failure(WindowError(issuedAt, now).value))
    else
      var kept := Purge(rows, now);
      var i := Find(kept, k);
      if i < |kept| then
        if kept[i].digest != digest || kept[i].issuedAt != issuedAt then (rows, Failure(Conflict))
        else (kept, Success(SeenAs(kept[i], owner)))
      else if |kept| >= limits.entries then (rows, Failure(EntriesExhausted))
      else if Reserved(kept) + MetadataBytes(k) + MAX_BODY_BYTES > limits.bytes then (rows, Failure(BytesExhausted))
      else (kept + [NewRow(k, issuedAt, digest, owner)], Success(IsNew))
  }

  predicate Completable(row: Row, a: Admission) {
    row.key == a.key && row.issuedAt == a.issuedAt && row.digest == a.digest && row.state.Admitted? && row.owner == a.owner
  }

  function CompleteRow(row: Row, result: Bytes): Row {
    row.(state := State.Completed(result), reserved := row.reserved - MAX_BODY_BYTES + |result|)
  }

  function Complete(rows: seq<Row>, a: Admission, result: Bytes): (seq<Row>, Option<Error>) {
    var i := Find(rows, a.key);
    if i == |rows| || !Completable(rows[i], a) then (rows, Some(StaleAdmission))
    else (rows[i := CompleteRow(rows[i], result)], None)
  }

  // ---- The journal of one process ----

  class Table {
    var rows: seq<Row>

    constructor ()
      ensures rows == []
    {
      rows := [];
    }
  }

  class DirectCommandJournal {
    const table: Table
    const processOwner: ProcessId
    const limits: Limits
    var capabilities: map<CapabilityId, Admission>

    constructor (table: Table, processOwner: ProcessId, limits: Limits)
      ensures this.table == table && this.processOwner == processOwner && this.limits == limits && capabilities == map[]
    {
      this.table, this.processOwner, this.limits, capabilities := table, processOwner, limits, map[];
    }

    static method DeleteExpired(rows: seq<Row>, now: int) returns (kept: seq<Row>)
      ensures kept == Purge(rows, now)
    {
      kept := [];
      var i := |rows|;
      while i > 0
        invariant 0 <= i <= |rows|
        invariant kept == Purge(rows[i..], now)
      {
        i := i - 1;
        assert rows[i..][1..] == rows[i + 1..];
        if rows[i].expiresAt > now {
          kept := [rows[i]] + kept;
        }
      }
    }

    static method SelectByKey(rows: seq<Row>, k: Key) returns (i: nat)
      ensures i == Find(rows, k)
    {
      i := 0;
      while i < |rows| && rows[i].key != k
        invariant i <= |rows|
        invariant Find(rows, k) == i + Find(rows[i..], k)
      {
        assert rows[i..][1..] == rows[i + 1..];
        i := i + 1;
      }
    }

    static method SumReserved(rows: seq<Row>) returns (bytes: int)
      ensures bytes == Reserved(rows)
    {
      bytes := 0;
      var i := |rows|;
      while i > 0
        invariant 0 <= i <= |rows|
        invariant bytes == Reserved(rows[i..])
      {
        i := i - 1;
        assert rows[i..][1..] == rows[i + 1..];
        bytes := bytes + rows[i].reserved;
      }
    }

    // A fresh capability is remembered for an admission this process may still complete.
    method AdmitCommand(k: Key, issuedAt: int, digest: Digest, now: int, capability: CapabilityId)
      returns (r: Result<Seen, Error>)
      modifies table, this
      ensures (table.rows, r) == Admit(old(table.rows), limits, processOwner, k, issuedAt, digest, now)
      ensures capabilities == if r.Success? && r.value in {IsNew, SeenAdmitted}
                              then old(capabilities)[capability := Admission(k, issuedAt, digest, processOwner)]
                              else old(capabilities)
    {
      if issuedAt > now + REQUEST_FUTURE_SECONDS {
        return Failure(TooFarInFuture);
      }
      if issuedAt < now - REQUEST_PAST_SECONDS {
        return Failure(Error.Expired);
      }
      var kept := DeleteExpired(table.rows, now);
      var i := SelectByKey(kept, k);
      if i < |kept| {
        var row := kept[i];
        if row.digest != digest || row.issuedAt != issuedAt {
          return Failure(Conflict);
        }
        table.rows := kept;
        var seen := SeenAs(row, processOwner);
        if seen.SeenAdmitted? {
          capabilities := capabilities[capability := Admission(k, issuedAt, digest, processOwner)];
        }
        return Success(seen);
      }
      var reserved := MetadataBytes(k) + MAX_BODY_BYTES;
      if |kept| >= limits.entries {
        return Failure(EntriesExhausted);
      }
      var used := SumReserved(kept);
      if used + reserved > limits.bytes {
        return Failure(BytesExhausted);
      }
      table.rows := kept + [Row(k, issuedAt, digest, State.Admitted, processOwner, issuedAt + RECORD_TTL_SECONDS, reserved)];
      capabilities := capabilities[capability := Admission(k, issuedAt, digest, processOwner)];
      return Success(IsNew);
    }

    // Completing forgets every capability for the same key.
    method CompleteCommand(capability: CapabilityId, result: Bytes) returns (error: Option<Error>)
      modifies table, this
      ensures capability !in old(capabilities) || old(capabilities)[capability].owner != processOwner ==>
                error == Some(NotOwned) && table.rows == old(table.rows) && capabilities == old(capabilities)
      ensures capability in old(capabilities) && old(capabilities)[capability].owner == processOwner ==>
                && (table.rows, error) == Complete(old(table.rows), old(capabilities)[capability], result)
                && capabilities == if error.Some? then old(capabilities)
                                   else map c | c in old(capabilities)
                                               && old(capabilities)[c].key != old(capabilities)[capability].key
                                        :: old(capabilities)[c]
    {
      if capability !in capabilities || capabilities[capability].owner != processOwner {
        return Some(NotOwned);
      }
      var a := capabilities[capability];
      var i := SelectByKey(table.rows, a.key);
      if i == |table.rows| || table.rows[i].issuedAt != a.issuedAt || table.rows[i].digest != a.digest
         || !table.rows[i].state.Admitted? || table.rows[i].owner != processOwner
      {
        return Some(StaleAdmission);
      }
      var metadata := table.rows[i].reserved - MAX_BODY_BYTES;
      table.rows := table.rows[i := table.rows[i].(state := State.Completed(result), reserved := metadata + |result|)];
      capabilities := map c | c in capabilities && capabilities[c].key != a.key :: capabilities[c];
      return None;
    }
  }

  // ---- Runs of any number of processes over one table ----

  datatype Dispatch = Dispatch(key: Key, issuedAt: int)

  datatype Journal = Journal(
    rows: seq<Row>,
    limits: Limits,
    granted: set<Admission>,       // history: admissions some journal issued a capability for
    dispatched: seq<Dispatch>)     // history: commands handed to the dispatcher, which happens when new

  datatype Step =
    | AdmitStep(owner: ProcessId, key: Key, issuedAt: int, digest: Digest, now: int)
    | CompleteStep(admission: Admission, result: Bytes)

  function Apply(j: Journal, step: Step): Journal {
    match step
    case AdmitStep(owner, k, issuedAt, digest, now) =>
      var (rows, r) := Admit(j.rows, j.limits, owner, k, issuedAt, digest, now);
      j.(rows := rows,
         granted := if r.Success? && r.value in {IsNew, SeenAdmitted}
                    then j.granted + {Admission(k, issuedAt, digest, owner)} else j.granted,
         dispatched := if r == Success(IsNew) then j.dispatched + [Dispatch(k, issuedAt)] else j.dispatched)
    case CompleteStep(a, result) =>
      if a in j.granted && |result| <= MAX_BODY_BYTES then j.(rows := Complete(j.rows, a, result).0) else j
  }

  function Run(j: Journal, steps: seq<Step>): Journal
    decreases |steps|
  {
    if steps == [] then j else Run(Apply(j, steps[0]), steps[1..])
  }

  function Empty(limits: Limits): Journal { Journal([], limits, {}, []) }

  // ---- Conservation ----

  predicate RowOk(row: Row) {
    && row.expiresAt == row.issuedAt + RECORD_TTL_SECONDS
    && row.reserved == MetadataBytes(row.key) + (if row.state.Admitted? then MAX_BODY_BYTES else |row.state.result|)
    && (row.state.Completed? ==> |row.state.result| <= MAX_BODY_BYTES)
  }

  ghost predicate AllOk(rows: seq<Row>) { forall row :: row in rows ==> RowOk(row) }

  ghost predicate UniqueKeys(rows: seq<Row>) {
    forall i, j :: 0 <= i < j < |rows| ==> rows[i].key != rows[j].key
  }

  ghost predicate RowsOk(rows: seq<Row>) { AllOk(rows) && UniqueKeys(rows) }

  ghost predicate Within(rows: seq<Row>, limits: Limits) {
    RowsOk(rows) && |rows| <= limits.entries && Reserved(rows) <= limits.bytes
  }

  ghost predicate Conserved(j: Journal) {
    Within(j.rows, j.limits)
  }

  // Purging keeps exactly the unexpired rows.
  lemma {:induction false} PurgeMembers(rows: seq<Row>, now: int)
    ensures forall row :: row in Purge(rows, now) <==> row in rows && row.expiresAt > now
  {
    if rows != [] {
      PurgeMembers(rows[1..], now);
      assert rows == [rows[0]] + rows[1..];
    }
  }

  lemma {:induction false} PurgeUnique(rows: seq<Row>, now: int)
    requires UniqueKeys(rows)
    ensures UniqueKeys(Purge(rows, now))
  {
    if rows != [] {
      PurgeUnique(rows[1..], now);
      PurgeMembers(rows[1..], now);
      var rest := Purge(rows[1..], now);
      forall i | 0 <= i < |rest| ensures rest[i].key != rows[0].key {
        assert rest[i] in rows[1..];
      }
    }
  }

  // It only frees space.
  lemma {:induction false} PurgeShrinks(rows: seq<Row>, now: int)
    requires AllOk(rows)
    ensures |Purge(rows, now)| <= |rows| && Reserved(Purge(rows, now)) <= Reserved(rows)
  {
    if rows != [] {
      assert RowOk(rows[0]) && rows[0].reserved >= 0;
      PurgeShrinks(rows[1..], now);
    }
  }

  lemma PurgeOk(rows: seq<Row>, now: int)
    requires RowsOk(rows)
    ensures RowsOk(Purge(rows, now))
  {
    PurgeMembers(rows, now);
    PurgeUnique(rows, now);
  }

  lemma {:induction false} ReservedAppend(rows: seq<Row>, row: Row)
    ensures Reserved(rows + [row]) == Reserved(rows) + row.reserved
  {
    if rows == [] {
      assert [] + [row] == [row];
    } else {
      assert (rows + [row])[1..] == rows[1..] + [row];
      ReservedAppend(rows[1..], row);
    }
  }

  lemma {:induction false} ReservedUpdate(rows: seq<Row>, i: nat, row: Row)
    requires i < |rows|
    ensures Reserved(rows[i := row]) == Reserved(rows) - rows[i].reserved + row.reserved
  {
    if i > 0 {
      assert rows[i := row][1..] == rows[1..][i - 1 := row];
      ReservedUpdate(rows[1..], i - 1, row);
    } else {
      assert rows[0 := row][1..] == rows[1..];
    }
  }

  lemma AppendOk(rows: seq<Row>, row: Row)
    requires RowsOk(rows) && RowOk(row) && forall i :: 0 <= i < |rows| ==> rows[i].key != row.key
    ensures RowsOk(rows + [row])
  {
  }

  lemma UpdateOk(rows: seq<Row>, i: nat, row: Row)
    requires RowsOk(rows) && RowOk(row) && i < |rows| && rows[i].key == row.key
    ensures RowsOk(rows[i := row])
  {
  }

  lemma AdmitConserves(rows: seq<Row>, limits: Limits, owner: ProcessId, k: Key, issuedAt: int, digest: Digest, now: int)
    requires Within(rows, limits)
    ensures Within(Admit(rows, limits, owner, k, issuedAt, digest, now).0, limits)
  {
    PurgeOk(rows, now);
    PurgeShrinks(rows, now);
    var kept := Purge(rows, now);
    ReservedAppend(kept, NewRow(k, issuedAt, digest, owner));
    if Find(kept, k) == |kept| {
      AppendOk(kept, NewRow(k, issuedAt, digest, owner));
    }
  }

  lemma CompleteConserves(rows: seq<Row>, limits: Limits, a: Admission, result: Bytes)
    requires Within(rows, limits) && |result| <= MAX_BODY_BYTES
    ensures Within(Complete(rows, a, result).0, limits)
  {
    var i := Find(rows, a.key);
    if i < |rows| && Completable(rows[i], a) {
      assert RowOk(rows[i]);
      ReservedUpdate(rows, i, CompleteRow(rows[i], result));
      UpdateOk(rows, i, CompleteRow(rows[i], result));
    }
  }

  lemma ApplyConserves(j: Journal, step: Step)
    requires Conserved(j)
    ensures Conserved(Apply(j, step)) && Apply(j, step).limits == j.limits
  {
    match step
    case AdmitStep(owner, k, issuedAt, digest, now) => AdmitConserves(j.rows, j.limits, owner, k, issuedAt, digest, now);
    case CompleteStep(a, result) =>
      if |result| <= MAX_BODY_BYTES {
        CompleteConserves(j.rows, j.limits, a, result);
      }
  }

  /** In every reachable state the table is within both limits, and every row holds exactly its due. */
  lemma {:induction false} JournalConservation(j: Journal, steps: seq<Step>)
    requires Conserved(j)
    ensures Conserved(Run(j, steps)) && Run(j, steps).limits == j.limits
    decreases |steps|
  {
    if steps != [] {
      ApplyConserves(j, steps[0]);
      JournalConservation(Apply(j, steps[0]), steps[1..]);
    }
  }

  /**
    Completion: it never raises a reservation, touches one row, and succeeds only for a row that is
    still admitted, by the process that owns it, under an admission issued for exactly that record;
    doing it twice fails.
  */
  lemma CompletionIsOnce(rows: seq<Row>, a: Admission, result: Bytes, again: Bytes)
    requires RowsOk(rows) && |result| <= MAX_BODY_BYTES
    ensures var (rows', error) := Complete(rows, a, result);
      && Reserved(rows') <= Reserved(rows)
      && (error.None? <==> exists row :: row in rows && Completable(row, a))
      && (error.Some? ==> rows' == rows)
      && (error.None? ==> Complete(rows', a, again) == (rows', Some(StaleAdmission)))
      && (forall row :: row in rows && row.key != a.key ==> row in rows')
  {
    var i := Find(rows, a.key);
    if i < |rows| {
      ReservedUpdate(rows, i, CompleteRow(rows[i], result));
      var rows' := Complete(rows, a, result).0;
      if Completable(rows[i], a) {
        assert rows'[i].key == a.key && forall j :: 0 <= j < i ==> rows'[j].key != a.key;
        assert Find(rows', a.key) == i;
      }
      forall row | row in rows && row.key != a.key ensures row in rows' {
        var j :| 0 <= j < |rows| && rows[j] == row;
        assert rows'[j] == row;
      }
    }
  }

  // ---- A record lives until it expires ----

  // The same record, possibly completed since.
  predicate Succeeds(row: Row, row': Row) {
    && row'.key == row.key && row'.issuedAt == row.issuedAt && row'.digest == row.digest && row'.owner == row.owner
    && row'.expiresAt == row.expiresAt && (row.state.Completed? ==> row' == row)
  }

  ghost predicate Holds(rows: seq<Row>, row: Row) { exists i :: 0 <= i < |rows| && Succeeds(row, rows[i]) }

  // No purge in these steps happens at or after the given time.
  predicate Before(steps: seq<Step>, time: int) {
    forall i :: 0 <= i < |steps| && steps[i].AdmitStep? ==> steps[i].now < time
  }

  // An admission leaves every row that is unexpired at its time.
  lemma AdmitKeeps(rows: seq<Row>, limits: Limits, step: Step, row: Row)
    requires row in rows && step.AdmitStep? && step.now < row.expiresAt
    ensures row in Admit(rows, limits, step.owner, step.key, step.issuedAt, step.digest, step.now).0
  {
    PurgeMembers(rows, step.now);
    assert row in Purge(rows, step.now) + [NewRow(step.key, step.issuedAt, step.digest, step.owner)];
  }

  lemma AdmitHolds(rows: seq<Row>, limits: Limits, step: Step, row: Row)
    requires Holds(rows, row) && step.AdmitStep? && step.now < row.expiresAt
    ensures Holds(Admit(rows, limits, step.owner, step.key, step.issuedAt, step.digest, step.now).0, row)
  {
    var i :| 0 <= i < |rows| && Succeeds(row, rows[i]);
    AdmitKeeps(rows, limits, step, rows[i]);
    var rows' := Admit(rows, limits, step.owner, step.key, step.issuedAt, step.digest, step.now).0;
    var j :| 0 <= j < |rows'| && rows'[j] == rows[i];
    assert Succeeds(row, rows'[j]);
  }

  lemma CompleteHolds(rows: seq<Row>, a: Admission, result: Bytes, row: Row)
    requires Holds(rows, row)
    ensures Holds(Complete(rows, a, result).0, row)
  {
    var i :| 0 <= i < |rows| && Succeeds(row, rows[i]);
    var rows' := Complete(rows, a, result).0;
    assert Succeeds(row, rows'[i]);
  }

  /** Whatever the processes do, an unexpired record is never evicted, and once completed it never changes. */
  lemma {:induction false} UnexpiredIsNeverEvicted(j: Journal, steps: seq<Step>, row: Row)
    requires Conserved(j) && Holds(j.rows, row) && Before(steps, row.expiresAt)
    ensures Conserved(Run(j, steps)) && Holds(Run(j, steps).rows, row)
    decreases |steps|
  {
    if steps != [] {
      var j1 := Apply(j, steps[0]);
      ApplyConserves(j, steps[0]);
      match steps[0] {
        case AdmitStep(_, _, _, _, _) => AdmitHolds(j.rows, j.limits, steps[0], row);
        case CompleteStep(a, result) =>
          if a in j.granted && |result| <= MAX_BODY_BYTES {
            CompleteHolds(j.rows, a, result, row);
          }
      }
      assert Before(steps[1..], row.expiresAt);
      UnexpiredIsNeverEvicted(j1, steps[1..], row);
    }
  }

  lemma FindHeld(rows: seq<Row>, now: int, row: Row)
    requires RowsOk(rows) && Holds(rows, row) && now < row.expiresAt
    ensures var kept := Purge(rows, now);
      Find(kept, row.key) < |kept| && Succeeds(row, kept[Find(kept, row.key)])
  {
    var i :| 0 <= i < |rows| && Succeeds(row, rows[i]);
    PurgeMembers(rows, now);
    PurgeUnique(rows, now);
    var kept := Purge(rows, now);
    assert rows[i] in kept;
    var j :| 0 <= j < |kept| && kept[j] == rows[i];
  }

  /**
    Replays. For as long as a record is unexpired, a request for its key inside the admission window
    is never new: with the same payload and time it reports the one completed result, or that the
    command is admitted (to its own process) or uncertain (to any other), and with either changed it
    conflicts.
  */
  lemma ReplayReportsTheRecord(j: Journal, steps: seq<Step>, row: Row, owner: ProcessId, issuedAt: int, digest: Digest, now: int)
    requires Conserved(j) && row in j.rows && Before(steps, row.expiresAt)
    requires now < row.expiresAt && WindowError(issuedAt, now).None?
    ensures var r := Admit(Run(j, steps).rows, j.limits, owner, row.key, issuedAt, digest, now).1;
      && (issuedAt != row.issuedAt || digest != row.digest <==> r == Failure(Conflict))
      && (r.Success? ==>
            && (row.state.Completed? ==> r.value == SeenCompleted(row.state.result))
            && (r.value == SeenAdmitted ==> owner == row.owner) && (r.value == SeenUncertain ==> owner != row.owner)
            && r.value != IsNew)
  {
    var i :| 0 <= i < |j.rows| && j.rows[i] == row;
    assert Succeeds(row, j.rows[i]);
    UnexpiredIsNeverEvicted(j, steps, row);
    FindHeld(Run(j, steps).rows, now, row);
  }

  // ---- From admission to replay ----

  /**
    What is new. A command is admitted as new exactly when its time lies from a day behind to a minute
    ahead of the clock, no unexpired record has its key, and a record of its full reservation fits both
    limits beside the unexpired ones; the table then holds those and its record, which lives a day and a
    minute from its own time. Any other answer inserts nothing.
  */
  lemma NewIff(rows: seq<Row>, limits: Limits, owner: ProcessId, k: Key, issuedAt: int, digest: Digest, now: int)
    ensures var (rows', r) := Admit(rows, limits, owner, k, issuedAt, digest, now);
      var due := 256 + |k.accountOrigin| + |k.hostDeviceId| + |k.peerDeviceId| + |k.commandId| + 524288;
      && (r == Success(IsNew) <==>
            && now - 86400 <= issuedAt <= now + 60 && (forall row :: row in rows && row.expiresAt > now ==> row.key != k)
            && |Purge(rows, now)| < limits.entries && Reserved(Purge(rows, now)) + due <= limits.bytes)
      && (r == Success(IsNew) ==> rows' == Purge(rows, now) + [Row(k, issuedAt, digest, State.Admitted, owner, issuedAt + 86460, due)])
      && (r != Success(IsNew) ==> forall row :: row in rows' ==> row in rows)
  {
    PurgeMembers(rows, now);
    var kept := Purge(rows, now);
    var i := Find(kept, k);
    if i == |kept| {
      forall row | row in rows && row.expiresAt > now ensures row.key != k {
        assert row in kept;
        var j :| 0 <= j < |kept| && kept[j] == row;
      }
    } else {
      assert kept[i] in kept;
    }
    hide Purge, Reserved, Find;
  }

  // Only its own admission completes a record.
  lemma {:induction false} AdmittedStays(j: Journal, steps: seq<Step>, row: Row)
    requires Conserved(j) && row in j.rows && Before(steps, row.expiresAt) && row.state.Admitted?
    requires forall i :: 0 <= i < |steps| && steps[i].CompleteStep? ==> !Completable(row, steps[i].admission)
    ensures Conserved(Run(j, steps)) && row in Run(j, steps).rows
    decreases |steps|
  {
    if steps != [] {
      ApplyConserves(j, steps[0]);
      StepKeepsAdmitted(j, steps[0], row);
      assert Before(steps[1..], row.expiresAt);
      AdmittedStays(Apply(j, steps[0]), steps[1..], row);
    }
  }

  lemma StepKeepsAdmitted(j: Journal, step: Step, row: Row)
    requires RowsOk(j.rows) && row in j.rows && (step.AdmitStep? ==> step.now < row.expiresAt)
    requires step.CompleteStep? ==> !Completable(row, step.admission)
    ensures row in Apply(j, step).rows
  {
    match step
    case AdmitStep(_, _, _, _, _) => AdmitKeeps(j.rows, j.limits, step, row);
    case CompleteStep(a, result) =>
      var i :| 0 <= i < |j.rows| && j.rows[i] == row;
      assert Apply(j, step).rows[i] == row;
  }

  // The process that was granted the admission completes the record, with the bytes it was given.
  lemma CompletionStores(j: Journal, a: Admission, result: Bytes, row: Row)
    requires Conserved(j) && a in j.granted && |result| <= MAX_BODY_BYTES && row in j.rows
    requires (row.key, row.issuedAt, row.digest, row.owner) == (a.key, a.issuedAt, a.digest, a.owner) && row.state.Admitted?
    ensures var j' := Apply(j, CompleteStep(a, result));
      Conserved(j') && exists done :: done in j'.rows && done.key == a.key && done.issuedAt == a.issuedAt && done.digest == a.digest
                                      && done.expiresAt == row.expiresAt && done.state == Completed(result)
  {
    ApplyConserves(j, CompleteStep(a, result));
    var i :| 0 <= i < |j.rows| && j.rows[i] == row;
    assert Find(j.rows, a.key) == i;
    assert Apply(j, CompleteStep(a, result)).rows[i].state == Completed(result);
  }

  /**
    A completed result is what every process is told. Once an admitted record is completed under its own
    admission, any request for the command before it expires, with the same time and payload, answers
    with exactly the bytes it was completed with - whatever all processes did in between.
  */
  lemma CompletedIsReplayed(j: Journal, a: Admission, result: Bytes, row: Row, steps: seq<Step>, owner: ProcessId, now: int)
    requires Conserved(j) && a in j.granted && |result| <= MAX_BODY_BYTES && row in j.rows
    requires (row.key, row.issuedAt, row.digest, row.owner) == (a.key, a.issuedAt, a.digest, a.owner) && row.state.Admitted?
    requires Before(steps, row.expiresAt) && now < row.expiresAt && now - 86400 <= a.issuedAt <= now + 60
    ensures var j' := Run(Apply(j, CompleteStep(a, result)), steps);
      Admit(j'.rows, j.limits, owner, a.key, a.issuedAt, a.digest, now).1 == Success(SeenCompleted(result))
  {
    CompletionStores(j, a, result, row);
    var j1 := Apply(j, CompleteStep(a, result));
    var done :| done in j1.rows && done.key == a.key && done.issuedAt == a.issuedAt && done.digest == a.digest
                && done.expiresAt == row.expiresAt && done.state == Completed(result);
    var i :| 0 <= i < |j1.rows| && j1.rows[i] == done;
    assert Succeeds(done, j1.rows[i]);
    UnexpiredIsNeverEvicted(j1, steps, done);
    FindHeld(Run(j1, steps).rows, now, done);
  }

  /**
    From end to end. A command admitted as new, completed by its process after anything else that happened,
    answers every later request until it expires with the bytes of that completion; until it is completed it
    answers that it is admitted to its own process and uncertain to any other; and a request with another
    time or payload conflicts throughout.
  */
  lemma NewIsRemembered(j: Journal, owner: ProcessId, k: Key, issuedAt: int, digest: Digest, now: int,
                        between: seq<Step>, result: Bytes, after: seq<Step>, other: ProcessId, time: int, payload: Digest, later: int)
    requires Conserved(j) && |result| <= MAX_BODY_BYTES
    requires Admit(j.rows, j.limits, owner, k, issuedAt, digest, now).1 == Success(IsNew)
    requires Before(between, issuedAt + 86460) && Before(after, issuedAt + 86460) && later < issuedAt + 86460
    requires later - 86400 <= time <= later + 60
    requires var a := Admission(k, issuedAt, digest, owner);
      forall i :: 0 <= i < |between| && between[i].CompleteStep? ==> between[i].admission != a
    ensures var a := Admission(k, issuedAt, digest, owner);
      var open := Run(Apply(j, AdmitStep(owner, k, issuedAt, digest, now)), between);
      var closed := Run(Apply(open, CompleteStep(a, result)), after);
      var same := time == issuedAt && payload == digest;
      && Admit(open.rows, j.limits, other, k, time, payload, later).1
         == (if !same then Failure(Conflict) else Success(if other == owner then SeenAdmitted else SeenUncertain))
      && Admit(closed.rows, j.limits, other, k, time, payload, later).1
         == if same then Success(SeenCompleted(result)) else Failure(Conflict)
  {
    hide Run, Apply, Admit, Conserved;
    NewIsOpen(j, owner, k, issuedAt, digest, now, between);
    var a, row := Admission(k, issuedAt, digest, owner), NewRow(k, issuedAt, digest, owner);
    var open := Run(Apply(j, AdmitStep(owner, k, issuedAt, digest, now)), between);
    AnswersAs(open, row, other, time, payload, later);
    ClosedAnswers(open, a, result, row, after, other, time, payload, later);
  }

  lemma NewIsOpen(j: Journal, owner: ProcessId, k: Key, issuedAt: int, digest: Digest, now: int, between: seq<Step>)
    requires Conserved(j) && Admit(j.rows, j.limits, owner, k, issuedAt, digest, now).1 == Success(IsNew)
    requires Before(between, issuedAt + 86460)
    requires var a := Admission(k, issuedAt, digest, owner);
      forall i :: 0 <= i < |between| && between[i].CompleteStep? ==> between[i].admission != a
    ensures var open := Run(Apply(j, AdmitStep(owner, k, issuedAt, digest, now)), between);
      && Conserved(open) && open.limits == j.limits && NewRow(k, issuedAt, digest, owner) in open.rows
      && Admission(k, issuedAt, digest, owner) in open.granted
  {
    var a, row := Admission(k, issuedAt, digest, owner), NewRow(k, issuedAt, digest, owner);
    var step := AdmitStep(owner, k, issuedAt, digest, now);
    NewIff(j.rows, j.limits, owner, k, issuedAt, digest, now);
    ApplyConserves(j, step);
    var j1 := Apply(j, step);
    assert row in j1.rows && a in j1.granted && j1.limits == j.limits;
    hide Apply, Admit, Run, Conserved;
    AdmittedStays(j1, between, row);
    GrantedStays(j1, between, a);
    JournalConservation(j1, between);
  }

  lemma ClosedAnswers(open: Journal, a: Admission, result: Bytes, row: Row, after: seq<Step>, other: ProcessId, time: int, payload: Digest, later: int)
    requires Conserved(open) && a in open.granted && |result| <= MAX_BODY_BYTES && row in open.rows
    requires (row.key, row.issuedAt, row.digest, row.owner) == (a.key, a.issuedAt, a.digest, a.owner) && row.state.Admitted?
    requires Before(after, row.expiresAt) && later < row.expiresAt && later - 86400 <= time <= later + 60
    ensures var closed := Run(Apply(open, CompleteStep(a, result)), after);
      Admit(closed.rows, open.limits, other, a.key, time, payload, later).1
      == if time == a.issuedAt && payload == a.digest then Success(SeenCompleted(result)) else Failure(Conflict)
  {
    hide Run, Apply, Admit, Conserved;
    CompletionStores(open, a, result, row);
    var j2 := Apply(open, CompleteStep(a, result));
    ApplyConserves(open, CompleteStep(a, result));
    JournalConservation(j2, after);
    var done :| done in j2.rows && done.key == a.key && done.issuedAt == a.issuedAt && done.digest == a.digest
                && done.expiresAt == row.expiresAt && done.state == Completed(result);
    HeldAfter(j2, after, done);
    HeldAnswers(Run(j2, after), done, other, time, payload, later);
  }

  lemma {:induction false} GrantedStays(j: Journal, steps: seq<Step>, a: Admission)
    requires a in j.granted
    ensures a in Run(j, steps).granted
    decreases |steps|
  {
    if steps != [] {
      GrantedStays(Apply(j, steps[0]), steps[1..], a);
    }
  }

  lemma HeldAfter(j: Journal, steps: seq<Step>, row: Row)
    requires Conserved(j) && row in j.rows && Before(steps, row.expiresAt)
    ensures Conserved(Run(j, steps)) && Holds(Run(j, steps).rows, row)
  {
    var i :| 0 <= i < |j.rows| && j.rows[i] == row;
    assert Succeeds(row, j.rows[i]);
    UnexpiredIsNeverEvicted(j, steps, row);
  }

  lemma HeldAnswers(j: Journal, row: Row, owner: ProcessId, time: int, payload: Digest, now: int)
    requires Conserved(j) && Holds(j.rows, row) && now < row.expiresAt && now - 86400 <= time <= now + 60 && row.state.Completed?
    ensures Admit(j.rows, j.limits, owner, row.key, time, payload, now).1
            == if time == row.issuedAt && payload == row.digest then Success(SeenCompleted(row.state.result)) else Failure(Conflict)
  {
    FindHeld(j.rows, now, row);
    hide Purge, Find;
  }

  lemma AnswersAs(j: Journal, row: Row, owner: ProcessId, time: int, payload: Digest, now: int)
    requires Conserved(j) && row in j.rows && now < row.expiresAt && now - 86400 <= time <= now + 60 && row.state.Admitted?
    ensures Admit(j.rows, j.limits, owner, row.key, time, payload, now).1
            == if time == row.issuedAt && payload == row.digest then Success(if owner == row.owner then SeenAdmitted else SeenUncertain)
               else Failure(Conflict)
  {
    PurgeMembers(j.rows, now);
    PurgeUnique(j.rows, now);
    var kept := Purge(j.rows, now);
    var i :| 0 <= i < |kept| && kept[i] == row;
    assert Find(kept, row.key) == i;
    hide Purge, Find;
  }

  // ---- At most one dispatch ----

  // Between any two admissions, in order, the clock never falls back by more than `slack` seconds.
  predicate Steady(steps: seq<Step>, slack: int) {
    forall i, k :: 0 <= i < k < |steps| && steps[i].AdmitStep? && steps[k].AdmitStep?
      ==> steps[k].now >= steps[i].now - slack
  }

  // Every later admission is read off a clock no more than `slack` behind this one.
  predicate NotBefore(steps: seq<Step>, high: int, slack: int) {
    forall k :: 0 <= k < |steps| && steps[k].AdmitStep? ==> steps[k].now >= high - slack
  }

  // A dispatched command's record is in the table, or the clock has reached its expiry.
  ghost predicate Recorded(j: Journal, d: Dispatch, high: int) {
    high >= d.issuedAt + RECORD_TTL_SECONDS || exists i :: 0 <= i < |j.rows| && j.rows[i].key == d.key && j.rows[i].issuedAt == d.issuedAt
  }

  ghost predicate DispatchOk(j: Journal, high: int) {
    && RowsOk(j.rows)
    && (forall i :: 0 <= i < |j.dispatched| ==> Recorded(j, j.dispatched[i], high))
    && (forall i, k :: 0 <= i < k < |j.dispatched| ==> j.dispatched[i] != j.dispatched[k])
  }

  ghost predicate AtMostOnce(j: Journal) {
    forall i, k :: 0 <= i < k < |j.dispatched| ==> j.dispatched[i] != j.dispatched[k]
  }

  lemma RecordedAfterAdmit(j: Journal, step: Step, high: int, d: Dispatch)
    requires RowsOk(j.rows) && step.AdmitStep? && Recorded(j, d, high)
    ensures Recorded(Apply(j, step), d, if high < step.now then step.now else high)
  {
    if high < d.issuedAt + RECORD_TTL_SECONDS {
      var i :| 0 <= i < |j.rows| && j.rows[i].key == d.key && j.rows[i].issuedAt == d.issuedAt;
      if j.rows[i].expiresAt > step.now {
        AdmitKeeps(j.rows, j.limits, step, j.rows[i]);
        var k :| 0 <= k < |Apply(j, step).rows| && Apply(j, step).rows[k] == j.rows[i];
      } else {
        assert RowOk(j.rows[i]);
      }
    }
  }

  lemma RecordedAfterComplete(j: Journal, step: Step, high: int, d: Dispatch)
    requires step.CompleteStep? && Recorded(j, d, high)
    ensures Recorded(Apply(j, step), d, high)
  {
    if high < d.issuedAt + RECORD_TTL_SECONDS {
      var i :| 0 <= i < |j.rows| && j.rows[i].key == d.key && j.rows[i].issuedAt == d.issuedAt;
      assert Apply(j, step).rows[i].key == d.key && Apply(j, step).rows[i].issuedAt == d.issuedAt;
    }
  }

  lemma NotNewWhileHeld(j: Journal, step: Step, row: Row)
    requires step.AdmitStep? && row in j.rows && row.key == step.key && step.now < row.expiresAt
    ensures Admit(j.rows, j.limits, step.owner, step.key, step.issuedAt, step.digest, step.now).1 != Success(IsNew)
  {
    HeldIsFound(j.rows, step.now, row);
    hide Purge, Find, Reserved, MetadataBytes;
  }

  lemma HeldIsFound(rows: seq<Row>, now: int, row: Row)
    requires row in rows && now < row.expiresAt
    ensures Find(Purge(rows, now), row.key) < |Purge(rows, now)|
  {
    PurgeMembers(rows, now);
    hide Purge;
    var kept := Purge(rows, now);
    var k :| 0 <= k < |kept| && kept[k] == row;
  }

  // The window and the record's life overlap by one minute: what is still recorded is not new, and
  // what has expired can only be new to a clock at least a minute behind.
  lemma NewIsNotRecorded(j: Journal, step: Step, high: int, d: Dispatch)
    requires RowsOk(j.rows) && step.AdmitStep? && Recorded(j, d, high) && step.now > high - REQUEST_FUTURE_SECONDS
    requires d.key == step.key && d.issuedAt == step.issuedAt
    ensures Admit(j.rows, j.limits, step.owner, step.key, step.issuedAt, step.digest, step.now).1 != Success(IsNew)
  {
    if WindowError(step.issuedAt, step.now).None? {
      assert high < d.issuedAt + RECORD_TTL_SECONDS;
      var i :| 0 <= i < |j.rows| && j.rows[i].key == d.key && j.rows[i].issuedAt == d.issuedAt;
      NotNewWhileHeld(j, step, j.rows[i]);
    }
  }

  lemma DispatchStep(j: Journal, step: Step, high: int)
    requires Conserved(j) && DispatchOk(j, high)
    requires step.AdmitStep? ==> step.now > high - REQUEST_FUTURE_SECONDS
    ensures DispatchOk(Apply(j, step), if step.AdmitStep? && high < step.now then step.now else high)
  {
    var j' := Apply(j, step);
    var high' := if step.AdmitStep? && high < step.now then step.now else high;
    ApplyConserves(j, step);
    forall i | 0 <= i < |j.dispatched| ensures Recorded(j', j.dispatched[i], high') {
      if step.AdmitStep? {
        RecordedAfterAdmit(j, step, high, j.dispatched[i]);
      } else {
        RecordedAfterComplete(j, step, high, j.dispatched[i]);
      }
    }
    if j'.dispatched != j.dispatched {
      forall i | 0 <= i < |j.dispatched| ensures j.dispatched[i] != Dispatch(step.key, step.issuedAt) {
        if j.dispatched[i] == Dispatch(step.key, step.issuedAt) {
          NewIsNotRecorded(j, step, high, j.dispatched[i]);
        }
      }
      assert j'.rows[|j'.rows| - 1].key == step.key && j'.rows[|j'.rows| - 1].issuedAt == step.issuedAt;
    }
  }

  lemma {:induction false} DispatchRun(j: Journal, steps: seq<Step>, high: int)
    requires Conserved(j) && DispatchOk(j, high)
    requires Steady(steps, REQUEST_FUTURE_SECONDS - 1) && NotBefore(steps, high, REQUEST_FUTURE_SECONDS - 1)
    ensures AtMostOnce(Run(j, steps))
    decreases |steps|
  {
    if steps != [] {
      var high' := if steps[0].AdmitStep? && high < steps[0].now then steps[0].now else high;
      DispatchStep(j, steps[0], high);
      ApplyConserves(j, steps[0]);
      assert forall i, k :: 0 <= i < k < |steps[1..]| ==> steps[1..][i] == steps[i + 1] && steps[1..][k] == steps[k + 1];
      assert NotBefore(steps[1..], high', REQUEST_FUTURE_SECONDS - 1);
      DispatchRun(Apply(j, steps[0]), steps[1..], high');
    }
  }

  // Some time no later than any clock reading of the run.
  lemma {:induction false} EarlierThanAll(steps: seq<Step>) returns (high: int)
    ensures NotBefore(steps, high, REQUEST_FUTURE_SECONDS - 1)
    decreases |steps|
  {
    high := 0;
    if steps != [] {
      high := EarlierThanAll(steps[1..]);
      assert forall k :: 1 <= k < |steps| ==> steps[k] == steps[1..][k - 1];
      if steps[0].AdmitStep? && steps[0].now < high {
        high := steps[0].now;
      }
    }
  }

  /**
    A command is dispatched at most once per principal, command id and issue time, over every run of
    any number of processes whose clock never falls back by a minute or more.
  */
  lemma DispatchedAtMostOnce(limits: Limits, steps: seq<Step>)
    requires 0 <= limits.entries && 0 <= limits.bytes && Steady(steps, REQUEST_FUTURE_SECONDS - 1)
    ensures AtMostOnce(Run(Empty(limits), steps))
  {
    var high := EarlierThanAll(steps);
    DispatchRun(Empty(limits), steps, high);
  }

  ghost predicate SafeWithSlack(limits: Limits, slack: int) {
    forall steps: seq<Step> :: Steady(steps, slack) ==> AtMostOnce(Run(Empty(limits), steps))
  }

  // The run that dispatches twice: admitted, purged by a second command's admission, and admitted
  // again by a clock that fell back.
  function TwiceSteps(k: Key, other: Key, slack: int): seq<Step> {
    [AdmitStep(0, k, 0, "", 0),
     AdmitStep(0, other, REQUEST_PAST_SECONDS + slack, "", REQUEST_PAST_SECONDS + slack),
     AdmitStep(0, k, 0, "", REQUEST_PAST_SECONDS)]
  }

  lemma OneRow(row: Row)
    ensures Reserved([row]) == row.reserved && (forall now :: Purge([row], now) == if row.expiresAt <= now then [] else [row])
    ensures forall k :: Find([row], k) == if row.key == k then 0 else 1
  {
    assert [row][1..] == [];
  }

  lemma FirstIsPurged(limits: Limits, k: Key, other: Key, slack: int)
    requires slack >= REQUEST_FUTURE_SECONDS && k != other && limits.entries >= 2
    requires limits.bytes >= MetadataBytes(k) + MetadataBytes(other) + 2 * MAX_BODY_BYTES
    ensures var steps := TwiceSteps(k, other, slack);
      var j := Apply(Apply(Empty(limits), steps[0]), steps[1]);
      && j.limits == limits && j.rows == [NewRow(other, REQUEST_PAST_SECONDS + slack, "", 0)]
      && j.dispatched == [Dispatch(k, 0), Dispatch(other, REQUEST_PAST_SECONDS + slack)]
  {
    var steps := TwiceSteps(k, other, slack);
    var j1 := Apply(Empty(limits), steps[0]);
    OneRow(NewRow(k, 0, "", 0));
    assert j1.rows == [NewRow(k, 0, "", 0)] && j1.dispatched == [Dispatch(k, 0)];
  }

  lemma ThirdIsNew(j: Journal, k: Key, other: Key, slack: int)
    requires slack >= REQUEST_FUTURE_SECONDS && k != other && j.limits.entries >= 2
    requires j.limits.bytes >= MetadataBytes(k) + MetadataBytes(other) + 2 * MAX_BODY_BYTES
    requires j.rows == [NewRow(other, REQUEST_PAST_SECONDS + slack, "", 0)]
    requires j.dispatched == [Dispatch(k, 0), Dispatch(other, REQUEST_PAST_SECONDS + slack)]
    ensures Apply(j, TwiceSteps(k, other, slack)[2]).dispatched
            == [Dispatch(k, 0), Dispatch(other, REQUEST_PAST_SECONDS + slack), Dispatch(k, 0)]
  {
    OneRow(j.rows[0]);
  }

  lemma DispatchesTwice(limits: Limits, k: Key, other: Key, slack: int)
    requires slack >= REQUEST_FUTURE_SECONDS && k != other && limits.entries >= 2
    requires limits.bytes >= MetadataBytes(k) + MetadataBytes(other) + 2 * MAX_BODY_BYTES
    ensures Steady(TwiceSteps(k, other, slack), slack)
    ensures !AtMostOnce(Run(Empty(limits), TwiceSteps(k, other, slack)))
  {
    var steps := TwiceSteps(k, other, slack);
    var j1 := Apply(Empty(limits), steps[0]);
    var j2 := Apply(j1, steps[1]);
    var j3 := Apply(j2, steps[2]);
    FirstIsPurged(limits, k, other, slack);
    ThirdIsNew(j2, k, other, slack);
    hide Apply;
    assert j3.dispatched[0] == j3.dispatched[2];
    assert steps[1..] == [steps[1], steps[2]] && steps[1..][1..] == [steps[2]] && steps[1..][1..][1..] == [];
    assert Run(Empty(limits), steps) == Run(j1, steps[1..]) == Run(j2, steps[1..][1..]) == Run(j3, []);
  }

  /** The tolerance is exact: at-most-once dispatch holds for a clock slack if and only if it is under a minute. */
  lemma ClockToleranceIsExact(limits: Limits, slack: int)
    requires limits.entries >= 2 && limits.bytes >= 2 * (METADATA_OVERHEAD_BYTES + 1 + MAX_BODY_BYTES)
    ensures SafeWithSlack(limits, slack) <==> slack < REQUEST_FUTURE_SECONDS
  {
    if slack < REQUEST_FUTURE_SECONDS {
      forall steps: seq<Step> | Steady(steps, slack) ensures AtMostOnce(Run(Empty(limits), steps)) {
        DispatchedAtMostOnce(limits, steps);
      }
    } else {
      var k, other := Key([], [], 1, [], 1, [0]), Key([], [], 1, [], 1, [1]);
      DispatchesTwice(limits, k, other, slack);
    }
  }
}
