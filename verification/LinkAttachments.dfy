/**
  Crash-safe assembly of inbound attachments. Each call of accept makes a few durable writes, and the
  process may die between any two of them; `Plan` lists the writes of a call in order, and the class
  makes them one by one.
*/
module LinkAttachments {
  import opened Sequences
  import opened Wrappers

  type Bytes = seq<bv8>
  type Id = string
  type Digest = string

  const CHUNK_BYTES := 64 * 1024

  // `extension` is the normalised suffix of the file name, which is all of the name that a path keeps.
  datatype Reference = Reference(
    attachmentId: Id, fileName: string, extension: string, mimeType: string, totalBytes: nat, sha256: Digest)

  // What every chunk of one upload repeats, and the manifest records.
  datatype Metadata = Metadata(sender: Id, uploadId: Id, sessionId: Id, agentId: Id, reference: Reference, count: nat)

  datatype Chunk = Chunk(meta: Metadata, index: nat, data: Bytes)

  datatype Manifest = Manifest(meta: Metadata, nextIndex: nat)

  // File names are digests of these coordinates, taken to be collision-free.
  datatype PartialKey = PartialKey(sender: Id, uploadId: Id)
  datatype ReadyKey = ReadyKey(sender: Id, sessionId: Id, agentId: Id, attachmentId: Id, sha256: Digest, extension: string)

  datatype Files = Files(partials: map<PartialKey, Bytes>, manifests: map<PartialKey, Manifest>, ready: map<ReadyKey, Bytes>)

  datatype Error = Incomplete | DigestMismatch | MetadataChanged | OutOfOrder | ReplayMismatch | SizeInvalid

  // Crashed: the process died during the call, so the frame stays unacknowledged.
  datatype Outcome = Accepted | Rejected(error: Error) | Crashed

  datatype Write =
    | Append(key: PartialKey, data: Bytes)
    | PutManifest(key: PartialKey, manifest: Manifest)
    | Promote(key: PartialKey, to: ReadyKey)
    | DropManifest(key: PartialKey)

  function KeyOf(m: Metadata): PartialKey { PartialKey(m.sender, m.uploadId) }

  function ReadyOf(m: Metadata): ReadyKey {
    ReadyKey(m.sender, m.sessionId, m.agentId, m.reference.attachmentId, m.reference.sha256, m.reference.extension)
  }

  function Stored(f: Files, k: PartialKey): Bytes { if k in f.partials then f.partials[k] else [] }

  function Partial(f: Files, k: PartialKey): Option<Bytes> { if k in f.partials then Some(f.partials[k]) else None }

  function NextIndex(f: Files, k: PartialKey): nat { if k in f.manifests then f.manifests[k].nextIndex else 0 }

  // Why a file does not verify against its reference, if it does not.
  function Flaw(content: Bytes, r: Reference, digest: Bytes -> Digest): (e: Option<Error>)
    ensures e.None? <==> |content| == r.totalBytes && digest(content) == r.sha256
  {
    if |content| != r.totalBytes then Some(Incomplete)
    else if digest(content) != r.sha256 then Some(DigestMismatch)
    else None
  }

  // The writes of one call, and how it ends when the process survives it.
  datatype Plan = Plan(writes: seq<Write>, outcome: Outcome)

  // Once the chunk is in the partial file: advance the manifest, or verify and promote the whole.
  function PlanFinish(c: Chunk, partial: Option<Bytes>, writes: seq<Write>, digest: Bytes -> Digest): Plan {
    var k := KeyOf(c.meta);
    if c.index + 1 < c.meta.count then Plan(writes + [PutManifest(k, Manifest(c.meta, c.index + 1))], Accepted)
    else if partial.None? then Plan(writes, Rejected(Incomplete))
    else
      match Flaw(partial.value, c.meta.reference, digest)
      case Some(e) => Plan(writes, Rejected(e))
      case None => Plan(writes + [Promote(k, ReadyOf(c.meta)), DropManifest(k)], Accepted)
  }

  function PlanAccept(f: Files, c: Chunk, digest: Bytes -> Digest): Plan {
    var k := KeyOf(c.meta);
    var stored := Stored(f, k);
    var offset := c.index * CHUNK_BYTES;
    if ReadyOf(c.meta) in f.ready then
      match Flaw(f.ready[ReadyOf(c.meta)], c.meta.reference, digest)
      case Some(e) => Plan([], Rejected(e))
      case None => Plan([], Accepted)
    else if k in f.manifests && f.manifests[k].meta != c.meta then Plan([], Rejected(MetadataChanged))
    else if NextIndex(f, k) == c.index + 1 then
      PlanFinish(c, Partial(f, k), [], digest)
    else if NextIndex(f, k) != c.index then Plan([], Rejected(OutOfOrder))
    else if |stored| == offset then PlanFinish(c, Some(stored + c.data), [Append(k, c.data)], digest)
    else if |stored| != offset + |c.data| then Plan([], Rejected(SizeInvalid))
    else if stored[offset..] != c.data then Plan([], Rejected(ReplayMismatch))
    else PlanFinish(c, Some(stored), [], digest)
  }

  function ApplyWrite(f: Files, w: Write): Files {
    match w
    case Append(k, data) => f.(partials := f.partials[k := Stored(f, k) + data])
    case PutManifest(k, m) => f.(manifests := f.manifests[k := m])
    case Promote(k, to) => f.(partials := f.partials - {k}, ready := f.ready[to := Stored(f, k)])
    case DropManifest(k) => f.(manifests := f.manifests - {k})
  }

  function ApplyWrites(f: Files, ws: seq<Write>): Files
    decreases |ws|
  {
    if ws == [] then f else ApplyWrites(ApplyWrite(f, ws[0]), ws[1..])
  }

  lemma {:induction false} ApplyNext(f: Files, ws: seq<Write>, w: Write)
    ensures ApplyWrites(f, ws + [w]) == ApplyWrite(ApplyWrites(f, ws), w)
    decreases |ws|
  {
    if ws == [] {
      assert [] + [w] == [w] && [w][1..] == [];
    } else {
      assert (ws + [w])[1..] == ws[1..] + [w];
      ApplyNext(ApplyWrite(f, ws[0]), ws[1..], w);
    }
  }

  // The process dies once it has made `crash` writes, if the call lasts that long.
  function Carry(f: Files, p: Plan, crash: nat): (Files, Outcome) {
    if crash <= |p.writes| then (ApplyWrites(f, p.writes[..crash]), Crashed) else (ApplyWrites(f, p.writes), p.outcome)
  }

  function AfterAccept(f: Files, c: Chunk, digest: Bytes -> Digest, crash: nat): (Files, Outcome) {
    Carry(f, PlanAccept(f, c, digest), crash)
  }

  class LinkAttachmentInbox {
    const digest: Bytes -> Digest
    var partials: map<PartialKey, Bytes>
    var manifests: map<PartialKey, Manifest>
    var ready: map<ReadyKey, Bytes>

    function Snapshot(): Files
      reads this
    {
      Files(partials, manifests, ready)
    }

    constructor (digest: Bytes -> Digest)
      ensures Snapshot() == Files(map[], map[], map[]) && this.digest == digest
    {
      this.digest, partials, manifests, ready := digest, map[], map[], map[];
    }

    method VerifyReady(content: Bytes, r: Reference) returns (e: Option<Error>)
      ensures e == Flaw(content, r, digest)
    {
      if |content| != r.totalBytes { return Some(Incomplete); }
      if digest(content) != r.sha256 { return Some(DigestMismatch); }
      return None;
    }

    /** Accept a chunk in a process that dies after `crash` durable writes, unless the call ends first. */
    method Accept(c: Chunk, crash: nat) returns (outcome: Outcome)
      modifies this
      ensures (Snapshot(), outcome) == AfterAccept(old(Snapshot()), c, digest, crash)
    {
      hide PlanFinish, ReadyOf, Flaw;
      ghost var before := Snapshot();
      var key := PartialKey(c.meta.sender, c.meta.uploadId);
      var target := ReadyOf(c.meta);
      if crash == 0 { return Crashed; }
      if target in ready {
        var e := VerifyReady(ready[target], c.meta.reference);
        return if e.Some? then Rejected(e.value) else Accepted;
      }
      var nextIndex := 0;
      if key in manifests {
        if manifests[key].meta != c.meta { return Rejected(MetadataChanged); }
        nextIndex := manifests[key].nextIndex;
      }
      if nextIndex != c.index && nextIndex != c.index + 1 { return Rejected(OutOfOrder); }
      var offset := c.index * CHUNK_BYTES;
      var size := if key in partials then |partials[key]| else 0;
      var left := crash;
      ghost var done: seq<Write> := [];
      if nextIndex == c.index {
        if size == offset {
          partials := partials[key := (if key in partials then partials[key] else []) + c.data];
          ApplyNext(before, done, Append(key, c.data));
          left, done := left - 1, [Append(key, c.data)];
          assert [] + done == done;
        } else if size == offset + |c.data| {
          if partials[key][offset..] != c.data { return Rejected(ReplayMismatch); }
        } else {
          return Rejected(SizeInvalid);
        }
      }
      outcome := Finish(c, left, before, done);
    }

    // The rest of a call that has made the writes in `done` since the state `before`.
    method Finish(c: Chunk, left: nat, ghost before: Files, ghost done: seq<Write>) returns (outcome: Outcome)
      requires Snapshot() == ApplyWrites(before, done)
      requires done == [] ==> left > 0
      requires done != [] ==> KeyOf(c.meta) in partials
      modifies this
      ensures (Snapshot(), outcome)
           == old(Carry(before, PlanFinish(c, Partial(Snapshot(), KeyOf(c.meta)), done, digest), |done| + left))
    {
      var key, target := KeyOf(c.meta), ReadyOf(c.meta);
      ghost var plan := PlanFinish(c, Partial(Snapshot(), key), done, digest);
      if left == 0 {
        assert plan.writes[..|done|] == done;
        return Crashed;
      }
      if c.index + 1 < c.meta.count {
        ApplyNext(before, done, PutManifest(key, Manifest(c.meta, c.index + 1)));
        manifests := manifests[key := Manifest(c.meta, c.index + 1)];
        assert plan.writes[..|done| + 1] == plan.writes;
        return if left == 1 then Crashed else Accepted;
      }
      if key !in partials { return Rejected(Incomplete); }
      var e := VerifyReady(partials[key], c.meta.reference);
      if e.Some? { return Rejected(e.value); }
      ApplyNext(before, done, Promote(key, target));
      ready := ready[target := partials[key]];
      partials := partials - {key};
      assert plan.writes == (done + [Promote(key, target)]) + [DropManifest(key)];
      if left == 1 {
        assert plan.writes[..|done| + 1] == done + [Promote(key, target)];
        return Crashed;
      }
      ApplyNext(before, done + [Promote(key, target)], DropManifest(key));
      manifests := manifests - {key};
      assert plan.writes[..|done| + 2] == plan.writes;
      return if left == 2 then Crashed else Accepted;
    }
  }

  // ---- What one call can do ----

  lemma CarryOne(f: Files, a: Write, o: Outcome, crash: nat)
    ensures Carry(f, Plan([a], o), crash)
         == if crash == 0 then (f, Crashed) else (ApplyWrite(f, a), if crash == 1 then Crashed else o)
  {
    ApplyNext(f, [], a);
    assert [a][..1] == [a] && [a][..0] == [] && [] + [a] == [a];
  }

  lemma CarryTwo(f: Files, a: Write, b: Write, o: Outcome, crash: nat)
    ensures Carry(f, Plan([a, b], o), crash)
         == if crash <= 1 then Carry(f, Plan([a], o), crash)
            else (ApplyWrite(ApplyWrite(f, a), b), if crash == 2 then Crashed else o)
  {
    ApplyNext(f, [], a);
    ApplyNext(f, [a], b);
    assert [] + [a] == [a] && [a] + [b] == [a, b];
    assert [a, b][..2] == [a, b] && [a, b][..1] == [a] == [a][..1] && [a, b][..0] == [] == [a][..0];
  }

  lemma CarryThree(f: Files, a: Write, b: Write, c: Write, o: Outcome, crash: nat)
    ensures Carry(f, Plan([a, b, c], o), crash)
         == if crash <= 2 then Carry(f, Plan([a, b], o), crash)
            else (ApplyWrite(ApplyWrite(ApplyWrite(f, a), b), c), if crash == 3 then Crashed else o)
  {
    CarryTwo(f, a, b, o, crash);
    ApplyNext(f, [a, b], c);
    ApplyNext(f, [a], b);
    ApplyNext(f, [], a);
    assert [a, b] + [c] == [a, b, c] && [a] + [b] == [a, b] && [] + [a] == [a];
    assert [a, b, c][..0] == [a, b][..0] && [a, b, c][..1] == [a, b][..1] && [a, b, c][..2] == [a, b] == [a, b][..2] && [a, b, c][..3] == [a, b, c];
  }

  // What a call for chunk c may change: its own partial file and manifest, and its own ready file,
  // which appears at most once and verified.
  ghost predicate Effect(f: Files, f': Files, m: Metadata, digest: Bytes -> Digest) {
    && (forall k :: k != KeyOf(m) ==> Partial(f', k) == Partial(f, k))
    && (forall k :: k != KeyOf(m) ==> (k in f'.manifests <==> k in f.manifests))
    && (forall k :: k != KeyOf(m) && k in f.manifests ==> f'.manifests[k] == f.manifests[k])
    && (f'.ready == f.ready
        || (ReadyOf(m) !in f.ready && ReadyOf(m) in f'.ready && f'.ready == f.ready[ReadyOf(m) := f'.ready[ReadyOf(m)]]
            && Flaw(f'.ready[ReadyOf(m)], m.reference, digest).None?))
  }

  // The calls that make no write to the ready directory.
  lemma QuietEffect(f: Files, c: Chunk, digest: Bytes -> Digest, ws: seq<Write>, crash: nat, o: Outcome)
    requires ws == [] || (|ws| == 1 && (ws[0].Append? || ws[0].PutManifest?) && ws[0].key == KeyOf(c.meta))
          || (|ws| == 2 && ws[0].Append? && ws[1].PutManifest? && ws[0].key == ws[1].key == KeyOf(c.meta))
    ensures Effect(f, Carry(f, Plan(ws, o), crash).0, c.meta, digest)
  {
    if ws == [] {
      assert crash == 0 ==> ws[..0] == [];
    } else if |ws| == 1 {
      assert ws == [ws[0]];
      CarryOne(f, ws[0], o, crash);
    } else {
      assert ws == [ws[0], ws[1]];
      CarryTwo(f, ws[0], ws[1], o, crash);
      CarryOne(f, ws[0], o, crash);
    }
  }

  lemma PromotionEffect(f: Files, m: Metadata, digest: Bytes -> Digest, crash: nat)
    requires ReadyOf(m) !in f.ready && Flaw(Stored(f, KeyOf(m)), m.reference, digest).None?
    ensures Effect(f, Carry(f, Plan([Promote(KeyOf(m), ReadyOf(m)), DropManifest(KeyOf(m))], Accepted), crash).0, m, digest)
  {
    CarryTwo(f, Promote(KeyOf(m), ReadyOf(m)), DropManifest(KeyOf(m)), Accepted, crash);
    CarryOne(f, Promote(KeyOf(m), ReadyOf(m)), Accepted, crash);
  }

  lemma AppendPromotionEffect(f: Files, m: Metadata, data: Bytes, digest: Bytes -> Digest, crash: nat)
    requires ReadyOf(m) !in f.ready && Flaw(Stored(f, KeyOf(m)) + data, m.reference, digest).None?
    ensures var p := Plan([Append(KeyOf(m), data), Promote(KeyOf(m), ReadyOf(m)), DropManifest(KeyOf(m))], Accepted);
      Effect(f, Carry(f, p, crash).0, m, digest)
  {
    var k := KeyOf(m);
    CarryThree(f, Append(k, data), Promote(k, ReadyOf(m)), DropManifest(k), Accepted, crash);
    CarryTwo(f, Append(k, data), Promote(k, ReadyOf(m)), Accepted, crash);
    CarryOne(f, Append(k, data), Accepted, crash);
  }

  lemma FinishEffect(f: Files, c: Chunk, digest: Bytes -> Digest, crash: nat)
    requires ReadyOf(c.meta) !in f.ready
    ensures Effect(f, Carry(f, PlanFinish(c, Partial(f, KeyOf(c.meta)), [], digest), crash).0, c.meta, digest)
  {
    var k := KeyOf(c.meta);
    var p := PlanFinish(c, Partial(f, k), [], digest);
    if c.index + 1 >= c.meta.count && p.outcome == Accepted {
      assert p.writes == [Promote(k, ReadyOf(c.meta)), DropManifest(k)];
      PromotionEffect(f, c.meta, digest, crash);
    } else {
      QuietEffect(f, c, digest, p.writes, crash, p.outcome);
    }
  }

  lemma AppendFinishEffect(f: Files, c: Chunk, digest: Bytes -> Digest, crash: nat)
    requires ReadyOf(c.meta) !in f.ready
    ensures var k := KeyOf(c.meta);
      Effect(f, Carry(f, PlanFinish(c, Some(Stored(f, k) + c.data), [Append(k, c.data)], digest), crash).0, c.meta, digest)
  {
    var k := KeyOf(c.meta);
    var p := PlanFinish(c, Some(Stored(f, k) + c.data), [Append(k, c.data)], digest);
    if c.index + 1 >= c.meta.count && p.outcome == Accepted {
      assert p.writes == [Append(k, c.data), Promote(k, ReadyOf(c.meta)), DropManifest(k)];
      AppendPromotionEffect(f, c.meta, c.data, digest, crash);
    } else {
      QuietEffect(f, c, digest, p.writes, crash, p.outcome);
    }
  }

  /** A call for one upload, crashed anywhere or not, touches nothing of another, and promotes only verified content. */
  lemma AcceptEffect(f: Files, c: Chunk, digest: Bytes -> Digest, crash: nat)
    ensures Effect(f, AfterAccept(f, c, digest, crash).0, c.meta, digest)
  {
    var p := PlanAccept(f, c, digest);
    if p.writes == [] {
      QuietEffect(f, c, digest, p.writes, crash, p.outcome);
    } else if NextIndex(f, KeyOf(c.meta)) == c.index && |Stored(f, KeyOf(c.meta))| == c.index * CHUNK_BYTES {
      AppendFinishEffect(f, c, digest, crash);
    } else {
      FinishEffect(f, c, digest, crash);
    }
  }

  // ---- Nothing unverified is ever ready ----

  // Chunks from anyone, in any order, and any removal of files: the stale purge, and discarding.
  datatype Event = Deliver(chunk: Chunk, crash: nat) | Remove(partials: set<PartialKey>, manifests: set<PartialKey>, ready: set<ReadyKey>)

  function AfterEvent(f: Files, e: Event, digest: Bytes -> Digest): Files {
    match e
    case Deliver(c, crash) => AfterAccept(f, c, digest, crash).0
    case Remove(ps, ms, rs) => Files(f.partials - ps, f.manifests - ms, f.ready - rs)
  }

  function AfterEvents(f: Files, es: seq<Event>, digest: Bytes -> Digest): Files
    decreases |es|
  {
    if es == [] then f else AfterEvents(AfterEvent(f, es[0], digest), es[1..], digest)
  }

  ghost predicate AllVerified(f: Files, digest: Bytes -> Digest) {
    forall k :: k in f.ready ==> digest(f.ready[k]) == k.sha256
  }

  /** Over every run, a ready file has the digest it is filed under, and stays as it is until removed. */
  lemma {:induction false} ReadyIsVerified(f: Files, es: seq<Event>, digest: Bytes -> Digest)
    requires AllVerified(f, digest)
    ensures AllVerified(AfterEvents(f, es, digest), digest)
    decreases |es|
  {
    if es != [] {
      var f' := AfterEvent(f, es[0], digest);
      if es[0].Deliver? {
        AcceptEffect(f, es[0].chunk, digest, es[0].crash);
      }
      ReadyIsVerified(f', es[1..], digest);
    }
  }

  lemma {:induction false} ReadyIsStable(f: Files, es: seq<Event>, digest: Bytes -> Digest, k: ReadyKey)
    requires k in f.ready && forall i :: 0 <= i < |es| && es[i].Remove? ==> k !in es[i].ready
    ensures var f' := AfterEvents(f, es, digest); k in f'.ready && f'.ready[k] == f.ready[k]
    decreases |es|
  {
    if es != [] {
      if es[0].Deliver? {
        AcceptEffect(f, es[0].chunk, digest, es[0].crash);
      }
      ReadyIsStable(AfterEvent(f, es[0], digest), es[1..], digest, k);
    }
  }

  /** An accepted final chunk leaves a ready file of exactly the referenced length and digest. */
  lemma AcceptedFinalChunk(f: Files, c: Chunk, digest: Bytes -> Digest, crash: nat)
    requires c.index + 1 >= c.meta.count && AfterAccept(f, c, digest, crash).1 == Accepted
    ensures var f' := AfterAccept(f, c, digest, crash).0;
      ReadyOf(c.meta) in f'.ready && Flaw(f'.ready[ReadyOf(c.meta)], c.meta.reference, digest).None?
  {
    var p := PlanAccept(f, c, digest);
    AcceptEffect(f, c, digest, crash);
    FinalPlan(f, c, digest);
    hide PlanAccept, Flaw, ApplyWrites;
    if |p.writes| == 2 {
      CarryTwo(f, p.writes[0], p.writes[1], p.outcome, crash);
    } else if |p.writes| == 3 {
      CarryThree(f, p.writes[0], p.writes[1], p.writes[2], p.outcome, crash);
    }
  }

  // A final chunk is accepted because the file is ready and verified, or by a plan that promotes it.
  lemma FinalPlan(f: Files, c: Chunk, digest: Bytes -> Digest)
    requires c.index + 1 >= c.meta.count && PlanAccept(f, c, digest).outcome == Accepted
    ensures var p, k := PlanAccept(f, c, digest), KeyOf(c.meta);
      || (p.writes == [] && ReadyOf(c.meta) in f.ready && Flaw(f.ready[ReadyOf(c.meta)], c.meta.reference, digest).None?)
      || (ReadyOf(c.meta) !in f.ready
          && (p.writes == [Promote(k, ReadyOf(c.meta)), DropManifest(k)]
              || p.writes == [Append(k, c.data), Promote(k, ReadyOf(c.meta)), DropManifest(k)]))
  {
  }

  // ---- Which chunks are accepted ----

  // The next chunk of the upload the manifest describes, or the last one again, in its place in the partial file.
  predicate Continues(f: Files, c: Chunk) {
    var k := KeyOf(c.meta);
    var stored, offset, next := Stored(f, k), c.index * 65536, NextIndex(f, k);
    && (k in f.manifests ==> f.manifests[k].meta == c.meta)
    && (next == c.index + 1
        || (next == c.index && (|stored| == offset || (|stored| >= offset && stored == stored[..offset] + c.data))))
  }

  // The partial file with the chunk in it.
  function Extended(f: Files, c: Chunk): Bytes {
    var stored := Stored(f, KeyOf(c.meta));
    if NextIndex(f, KeyOf(c.meta)) == c.index && |stored| == c.index * 65536 then stored + c.data else stored
  }

  predicate Verifies(content: Bytes, r: Reference, digest: Bytes -> Digest) { |content| == r.totalBytes && digest(content) == r.sha256 }

  lemma ContinuesIff(f: Files, c: Chunk, digest: Bytes -> Digest)
    requires ReadyOf(c.meta) !in f.ready
    ensures var k := KeyOf(c.meta);
      var appends := NextIndex(f, k) == c.index && |Stored(f, k)| == c.index * 65536;
      if !Continues(f, c) then PlanAccept(f, c, digest).writes == [] && PlanAccept(f, c, digest).outcome.Rejected?
      else if appends then PlanAccept(f, c, digest) == PlanFinish(c, Some(Extended(f, c)), [Append(k, c.data)], digest)
      else PlanAccept(f, c, digest) == PlanFinish(c, Partial(f, k), [], digest)
  {
    var k := KeyOf(c.meta);
    var stored, offset := Stored(f, k), c.index * CHUNK_BYTES;
    if |stored| >= offset {
      assert stored == stored[..offset] + stored[offset..];
      assert (stored[..offset] + c.data)[offset..] == c.data;
    }
    if NextIndex(f, k) == c.index && |stored| == offset + |c.data| && |stored| != offset {
      assert k in f.partials;
    }
    hide PlanFinish;
    if NextIndex(f, k) == c.index && |stored| != offset && Continues(f, c) {
      assert |stored| == offset + |c.data|;
      assert k in f.partials && Partial(f, k) == Some(stored);
    }
  }

  /** While the file is ready, a chunk of the upload is accepted exactly if that file verifies, and nothing is written. */
  lemma ReadyAnswers(f: Files, c: Chunk, digest: Bytes -> Digest, crash: nat)
    requires ReadyOf(c.meta) in f.ready && crash > 0
    ensures var (f', o) := AfterAccept(f, c, digest, crash);
      f' == f && (o == Accepted <==> Verifies(f.ready[ReadyOf(c.meta)], c.meta.reference, digest))
  {
  }

  /**
    A chunk that is not the last is accepted, by a process that survives it, if and only if it continues the
    upload: the same metadata, the next chunk or the last one again, and in place. Then the partial file
    holds it and the manifest counts it; otherwise nothing is written.
  */
  lemma MiddleIff(f: Files, c: Chunk, digest: Bytes -> Digest)
    requires c.index + 1 < c.meta.count && ReadyOf(c.meta) !in f.ready
    ensures var (f', o) := AfterAccept(f, c, digest, 4);
      && (o == Accepted <==> Continues(f, c)) && (o != Accepted ==> o.Rejected? && f' == f)
      && (o == Accepted ==>
            && f'.manifests == f.manifests[KeyOf(c.meta) := Manifest(c.meta, c.index + 1)]
            && Stored(f', KeyOf(c.meta)) == Extended(f, c) && f'.ready == f.ready)
  {
    var k := KeyOf(c.meta);
    ContinuesIff(f, c, digest);
    var put := PutManifest(k, Manifest(c.meta, c.index + 1));
    if Continues(f, c) {
      if NextIndex(f, k) == c.index && |Stored(f, k)| == c.index * 65536 {
        assert [Append(k, c.data)] + [put] == [Append(k, c.data), put];
        CarryTwo(f, Append(k, c.data), put, Accepted, 4);
      } else {
        assert [] + [put] == [put];
        CarryOne(f, put, Accepted, 4);
      }
    }
    hide PlanAccept, Continues;
  }

  /**
    The last one is accepted if and only if it continues the upload and the whole file verifies. Then the
    file is ready, and the partial file and the manifest are gone; otherwise nothing is written, but for a
    last chunk that was in place and leaves a file that does not verify.
  */
  lemma LastIff(f: Files, c: Chunk, digest: Bytes -> Digest)
    requires c.index + 1 >= c.meta.count && ReadyOf(c.meta) !in f.ready
    ensures var (f', o) := AfterAccept(f, c, digest, 4); var k, whole := KeyOf(c.meta), Extended(f, c);
      var present := k in f.partials || (NextIndex(f, k) == c.index && |Stored(f, k)| == c.index * 65536);
      && (o == Accepted <==> Continues(f, c) && present && Verifies(whole, c.meta.reference, digest))
      && (o == Accepted ==> f'.ready == f.ready[ReadyOf(c.meta) := whole] && f'.partials == f.partials - {k} && f'.manifests == f.manifests - {k})
      && (o != Accepted ==>
            o.Rejected? && f'.ready == f.ready && f'.manifests == f.manifests && (f' == f || (Continues(f, c) && f'.partials == f.partials[k := whole])))
  {
    var k := KeyOf(c.meta);
    ContinuesIff(f, c, digest);
    var promote, drop := Promote(k, ReadyOf(c.meta)), DropManifest(k);
    var p := PlanAccept(f, c, digest);
    if Continues(f, c) {
      if NextIndex(f, k) == c.index && |Stored(f, k)| == c.index * 65536 {
        assert [Append(k, c.data)] + [promote, drop] == [Append(k, c.data), promote, drop];
        CarryThree(f, Append(k, c.data), promote, drop, Accepted, 4);
        CarryOne(f, Append(k, c.data), p.outcome, 4);
        assert f.partials[k := Extended(f, c)] - {k} == f.partials - {k};
      } else {
        assert [] + [promote, drop] == [promote, drop];
        CarryTwo(f, promote, drop, Accepted, 4);
      }
    }
    hide PlanAccept, Continues;
  }

  // ---- One upload, sent by the protocol ----

  datatype Upload = Upload(meta: Metadata, chunks: seq<Bytes>)

  // The content after k chunks.
  function Prefix(u: Upload, k: nat): Bytes
    requires k <= |u.chunks|
  {
    Flatten(u.chunks[..k])
  }

  function ChunkAt(u: Upload, i: nat): Chunk
    requires i < |u.chunks|
  {
    Chunk(u.meta, i, u.chunks[i])
  }

  // How a sender cuts a file: full chunks, then a last one that is not empty.
  ghost predicate WellCut(u: Upload, digest: Bytes -> Digest) {
    && 0 < |u.chunks| == u.meta.count
    && (forall i :: 0 <= i < |u.chunks| - 1 ==> |u.chunks[i]| == CHUNK_BYTES)
    && 0 < |u.chunks[|u.chunks| - 1]| <= CHUNK_BYTES
    && u.meta.reference.totalBytes == |Flatten(u.chunks)| && u.meta.reference.sha256 == digest(Flatten(u.chunks))
  }

  ghost predicate Injective(digest: Bytes -> Digest) {
    forall a, b :: digest(a) == digest(b) ==> a == b
  }

  lemma PrefixNext(u: Upload, k: nat)
    requires k < |u.chunks|
    ensures Prefix(u, k + 1) == Prefix(u, k) + u.chunks[k]
  {
    assert u.chunks[..k + 1][..k] == u.chunks[..k];
  }

  lemma {:induction false} PrefixLength(u: Upload, digest: Bytes -> Digest, k: nat)
    requires WellCut(u, digest) && k < |u.chunks|
    ensures |Prefix(u, k)| == k * CHUNK_BYTES
  {
    if k > 0 {
      PrefixLength(u, digest, k - 1);
      PrefixNext(u, k - 1);
    }
  }

  // The sender has k acknowledgements. What is on disk: chunk k may already be in the manifest, and
  // the partial file is a whole number of chunks, at most one ahead of the manifest.
  ghost predicate Assembling(f: Files, u: Upload, acked: nat) {
    var k := KeyOf(u.meta);
    var m := NextIndex(f, k);
    && m < |u.chunks| && (m == acked || m == acked + 1)
    && (k in f.manifests ==> f.manifests[k].meta == u.meta)
    && (Stored(f, k) == Prefix(u, m) || Stored(f, k) == Prefix(u, m + 1))
  }

  ghost predicate Progress(f: Files, u: Upload, acked: nat) {
    if ReadyOf(u.meta) in f.ready then f.ready[ReadyOf(u.meta)] == Flatten(u.chunks)
    else Assembling(f, u, acked)
  }

  // The writes a call can still owe when chunk `acked` arrives: none, or a suffix of append, manifest
  // (or, for the last chunk, append, promote, drop).
  lemma PlanForCurrent(f: Files, u: Upload, digest: Bytes -> Digest, acked: nat)
    requires WellCut(u, digest) && acked < |u.chunks| && ReadyOf(u.meta) !in f.ready && Assembling(f, u, acked)
    ensures var k := KeyOf(u.meta);
      var appends := if NextIndex(f, k) == acked && Stored(f, k) == Prefix(u, acked) then [Append(k, u.chunks[acked])] else [];
      PlanAccept(f, ChunkAt(u, acked), digest) == Plan(
        appends + if acked + 1 < |u.chunks| then [PutManifest(k, Manifest(u.meta, acked + 1))]
                  else [Promote(k, ReadyOf(u.meta)), DropManifest(k)], Accepted)
  {
    var k := KeyOf(u.meta);
    var m := NextIndex(f, k);
    PrefixLength(u, digest, m);
    PrefixNext(u, m);
    assert u.chunks[..|u.chunks|] == u.chunks;
    if m == acked {
      if Stored(f, k) == Prefix(u, acked) {
        assert Stored(f, k) + u.chunks[acked] == Prefix(u, acked + 1);
      } else {
        assert Stored(f, k)[acked * CHUNK_BYTES..] == u.chunks[acked];
        assert k in f.partials;
      }
    }
  }

  lemma AppendProgress(f: Files, u: Upload, acked: nat)
    requires acked < |u.chunks| && ReadyOf(u.meta) !in f.ready && Assembling(f, u, acked)
    requires NextIndex(f, KeyOf(u.meta)) == acked && Stored(f, KeyOf(u.meta)) == Prefix(u, acked)
    ensures var f' := ApplyWrite(f, Append(KeyOf(u.meta), u.chunks[acked]));
      Assembling(f', u, acked) && f'.ready == f.ready && Stored(f', KeyOf(u.meta)) == Prefix(u, acked + 1)
  {
    PrefixNext(u, acked);
  }

  lemma ManifestProgress(f: Files, u: Upload, acked: nat)
    requires acked + 1 < |u.chunks| && ReadyOf(u.meta) !in f.ready && Assembling(f, u, acked)
    requires NextIndex(f, KeyOf(u.meta)) == acked ==> Stored(f, KeyOf(u.meta)) == Prefix(u, acked + 1)
    ensures var f' := ApplyWrite(f, PutManifest(KeyOf(u.meta), Manifest(u.meta, acked + 1)));
      Assembling(f', u, acked) && Assembling(f', u, acked + 1) && f'.ready == f.ready
  {
  }

  lemma PromoteProgress(f: Files, u: Upload)
    requires Stored(f, KeyOf(u.meta)) == Flatten(u.chunks)
    ensures forall acked, f' | f' == ApplyWrite(f, Promote(KeyOf(u.meta), ReadyOf(u.meta)))
                            || f' == ApplyWrite(ApplyWrite(f, Promote(KeyOf(u.meta), ReadyOf(u.meta))), DropManifest(KeyOf(u.meta))) ::
              Progress(f', u, acked) && ReadyOf(u.meta) in f'.ready
  {
  }

  lemma MiddleChunk(f: Files, u: Upload, digest: Bytes -> Digest, acked: nat, crash: nat)
    requires WellCut(u, digest) && acked + 1 < |u.chunks| && ReadyOf(u.meta) !in f.ready && Assembling(f, u, acked)
    ensures var (f', o) := AfterAccept(f, ChunkAt(u, acked), digest, crash);
      && Progress(f', u, acked) && (o == Accepted ==> Progress(f', u, acked + 1)) && (o == Accepted || o == Crashed)
      && (crash > 2 ==> o == Accepted)
  {
    PlanForCurrent(f, u, digest, acked);
    var k := KeyOf(u.meta);
    var append, put := Append(k, u.chunks[acked]), PutManifest(k, Manifest(u.meta, acked + 1));
    if NextIndex(f, k) == acked && Stored(f, k) == Prefix(u, acked) {
      assert PlanAccept(f, ChunkAt(u, acked), digest) == Plan([append, put], Accepted);
      CarryTwo(f, append, put, Accepted, crash);
      CarryOne(f, append, Accepted, crash);
      AppendProgress(f, u, acked);
      ManifestProgress(ApplyWrite(f, append), u, acked);
    } else {
      assert PlanAccept(f, ChunkAt(u, acked), digest) == Plan([put], Accepted);
      CarryOne(f, put, Accepted, crash);
      ManifestProgress(f, u, acked);
    }
  }

  lemma LastChunk(f: Files, u: Upload, digest: Bytes -> Digest, acked: nat, crash: nat)
    requires WellCut(u, digest) && acked + 1 == |u.chunks| && ReadyOf(u.meta) !in f.ready && Assembling(f, u, acked)
    ensures var (f', o) := AfterAccept(f, ChunkAt(u, acked), digest, crash);
      && Progress(f', u, acked) && (o == Accepted ==> Progress(f', u, acked + 1) && ReadyOf(u.meta) in f'.ready)
      && (o == Accepted || o == Crashed) && (crash > 3 ==> o == Accepted)
  {
    PlanForCurrent(f, u, digest, acked);
    var k := KeyOf(u.meta);
    var append, promote, drop := Append(k, u.chunks[acked]), Promote(k, ReadyOf(u.meta)), DropManifest(k);
    assert u.chunks[..|u.chunks|] == u.chunks;
    if Stored(f, k) == Prefix(u, acked) {
      assert PlanAccept(f, ChunkAt(u, acked), digest) == Plan([append, promote, drop], Accepted);
      CarryThree(f, append, promote, drop, Accepted, crash);
      CarryTwo(f, append, promote, Accepted, crash);
      CarryOne(f, append, Accepted, crash);
      AppendProgress(f, u, acked);
      PromoteProgress(ApplyWrite(f, append), u);
    } else {
      assert PlanAccept(f, ChunkAt(u, acked), digest) == Plan([promote, drop], Accepted);
      CarryTwo(f, promote, drop, Accepted, crash);
      CarryOne(f, promote, Accepted, crash);
      PromoteProgress(f, u);
    }
  }

  // Once the file is ready, every chunk of the upload is accepted and nothing changes.
  lemma AlreadyReady(f: Files, u: Upload, digest: Bytes -> Digest, i: nat, crash: nat)
    requires WellCut(u, digest) && i < |u.chunks|
    requires ReadyOf(u.meta) in f.ready && f.ready[ReadyOf(u.meta)] == Flatten(u.chunks)
    ensures AfterAccept(f, ChunkAt(u, i), digest, crash) == (f, if crash == 0 then Crashed else Accepted)
  {
    assert PlanAccept(f, ChunkAt(u, i), digest) == Plan([], Accepted);
  }

  /**
    The unacknowledged chunk. From any state a crash can have left, delivering it keeps the upload
    resumable wherever the process dies, and succeeds whenever the process survives.
  */
  lemma CurrentChunk(f: Files, u: Upload, digest: Bytes -> Digest, acked: nat, crash: nat)
    requires WellCut(u, digest) && acked < |u.chunks| && Progress(f, u, acked)
    ensures var (f', o) := AfterAccept(f, ChunkAt(u, acked), digest, crash);
      && Progress(f', u, acked) && (o == Accepted ==> Progress(f', u, acked + 1)) && (o == Accepted || o == Crashed)
      && (crash > 3 ==> o == Accepted)
      && (o == Accepted && acked + 1 == |u.chunks| ==> ReadyOf(u.meta) in f'.ready)
  {
    if ReadyOf(u.meta) in f.ready {
      AlreadyReady(f, u, digest, acked, crash);
    } else if acked + 1 < |u.chunks| {
      MiddleChunk(f, u, digest, acked, crash);
    } else {
      LastChunk(f, u, digest, acked, crash);
    }
  }

  /**
    A repeat of the last acknowledged chunk changes nothing that matters; a process that survives
    accepts it, unless the next chunk already reached the manifest.
  */
  lemma PreviousChunk(f: Files, u: Upload, digest: Bytes -> Digest, acked: nat, crash: nat)
    requires WellCut(u, digest) && 0 < acked <= |u.chunks| && Progress(f, u, acked)
    ensures var (f', o) := AfterAccept(f, ChunkAt(u, acked - 1), digest, crash);
      && Progress(f', u, acked)
      && (crash > 1 ==> o == if ReadyOf(u.meta) !in f.ready && NextIndex(f, KeyOf(u.meta)) == acked + 1
                             then Rejected(OutOfOrder) else Accepted)
  {
    var k := KeyOf(u.meta);
    if ReadyOf(u.meta) in f.ready {
      AlreadyReady(f, u, digest, acked - 1, crash);
    } else if NextIndex(f, k) == acked {
      var put := PutManifest(k, Manifest(u.meta, acked));
      assert PlanAccept(f, ChunkAt(u, acked - 1), digest) == Plan([put], Accepted);
      CarryOne(f, put, Accepted, crash);
    } else {
      assert PlanAccept(f, ChunkAt(u, acked - 1), digest) == Plan([], Rejected(OutOfOrder));
    }
  }

  // Chunks of other uploads, whatever they hold.
  lemma ForeignChunk(f: Files, u: Upload, digest: Bytes -> Digest, acked: nat, c: Chunk, crash: nat)
    requires WellCut(u, digest) && Injective(digest) && Progress(f, u, acked) && KeyOf(c.meta) != KeyOf(u.meta)
    ensures Progress(AfterAccept(f, c, digest, crash).0, u, acked)
  {
    hide AfterAccept, Prefix, Flaw;
    AcceptEffect(f, c, digest, crash);
    var f' := AfterAccept(f, c, digest, crash).0;
    assert Partial(f', KeyOf(u.meta)) == Partial(f, KeyOf(u.meta));
    if ReadyOf(u.meta) in f'.ready && ReadyOf(u.meta) !in f.ready {
      assert ReadyOf(c.meta) == ReadyOf(u.meta);
      assert digest(f'.ready[ReadyOf(u.meta)]) == digest(Flatten(u.chunks));
    }
  }

  // ---- Runs ----

  datatype Session = Session(files: Files, acked: nat)

  datatype Step = Send(index: nat, crash: nat) | Foreign(chunk: Chunk, crash: nat)

  // The transport delivers the unacknowledged chunk, or repeats the one before it.
  function Apply(s: Session, u: Upload, digest: Bytes -> Digest, step: Step): Session {
    match step
    case Send(i, crash) =>
      if i < |u.chunks| && (i == s.acked || i + 1 == s.acked) then
        var (f', o) := AfterAccept(s.files, ChunkAt(u, i), digest, crash);
        Session(f', if o == Accepted && i == s.acked then s.acked + 1 else s.acked)
      else s
    case Foreign(c, crash) =>
      if KeyOf(c.meta) != KeyOf(u.meta) then s.(files := AfterAccept(s.files, c, digest, crash).0) else s
  }

  function Run(s: Session, u: Upload, digest: Bytes -> Digest, steps: seq<Step>): Session
    decreases |steps|
  {
    if steps == [] then s else Run(Apply(s, u, digest, steps[0]), u, digest, steps[1..])
  }

  ghost predicate InProgress(s: Session, u: Upload) {
    s.acked <= |u.chunks| && Progress(s.files, u, s.acked) && (s.acked == |u.chunks| ==> ReadyOf(u.meta) in s.files.ready)
  }

  /** Every schedule of duplicates, crashes and other uploads leaves the upload resumable. */
  lemma {:induction false} RunProgress(s: Session, u: Upload, digest: Bytes -> Digest, steps: seq<Step>)
    requires WellCut(u, digest) && Injective(digest) && InProgress(s, u)
    ensures InProgress(Run(s, u, digest, steps), u)
    decreases |steps|
  {
    if steps != [] {
      ApplyProgress(s, u, digest, steps[0]);
      RunProgress(Apply(s, u, digest, steps[0]), u, digest, steps[1..]);
    }
  }

  lemma ApplyProgress(s: Session, u: Upload, digest: Bytes -> Digest, step: Step)
    requires WellCut(u, digest) && Injective(digest) && InProgress(s, u)
    ensures InProgress(Apply(s, u, digest, step), u)
  {
    match step
    case Send(i, crash) =>
      if i < |u.chunks| && i == s.acked {
        CurrentChunk(s.files, u, digest, i, crash);
      } else if i < |u.chunks| && i + 1 == s.acked {
        PreviousChunk(s.files, u, digest, s.acked, crash);
        if s.acked == |u.chunks| {
          AlreadyReady(s.files, u, digest, i, crash);
        }
      }
    case Foreign(c, crash) =>
      if KeyOf(c.meta) != KeyOf(u.meta) {
        ForeignChunk(s.files, u, digest, s.acked, c, crash);
        AcceptEffect(s.files, c, digest, crash);
      }
  }

  // What the sender still has to deliver, to a process that survives it.
  function Remaining(u: Upload, acked: nat): seq<Step>
    decreases |u.chunks| - acked
  {
    if acked >= |u.chunks| then [] else [Send(acked, 4)] + Remaining(u, acked + 1)
  }

  lemma {:induction false} RemainingCompletes(s: Session, u: Upload, digest: Bytes -> Digest)
    requires WellCut(u, digest) && InProgress(s, u)
    ensures var s' := Run(s, u, digest, Remaining(u, s.acked));
      s'.acked == |u.chunks| && ReadyOf(u.meta) in s'.files.ready && s'.files.ready[ReadyOf(u.meta)] == Flatten(u.chunks)
    decreases |u.chunks| - s.acked
  {
    hide WellCut, Assembling, AfterAccept, Prefix;
    if s.acked < |u.chunks| {
      CurrentChunk(s.files, u, digest, s.acked, 4);
      RemainingCompletes(Apply(s, u, digest, Send(s.acked, 4)), u, digest);
      assert Remaining(u, s.acked)[1..] == Remaining(u, s.acked + 1);
    }
  }

  /**
    Resumption. An upload into an empty inbox survives any schedule, and then redelivering the
    unacknowledged chunks, each exactly once, leaves a ready file equal to the concatenation of all.
  */
  lemma UploadResumes(u: Upload, digest: Bytes -> Digest, steps: seq<Step>)
    requires WellCut(u, digest) && Injective(digest)
    ensures var s := Run(Session(Files(map[], map[], map[]), 0), u, digest, steps);
      var s' := Run(s, u, digest, Remaining(u, s.acked));
      s'.acked == |u.chunks| && ReadyOf(u.meta) in s'.files.ready && s'.files.ready[ReadyOf(u.meta)] == Flatten(u.chunks)
  {
    var s := Session(Files(map[], map[], map[]), 0);
    assert Prefix(u, 0) == [];
    RunProgress(s, u, digest, steps);
    RemainingCompletes(Run(s, u, digest, steps), u, digest);
  }

  /**
    The stale purge judges each file by its own age, so it can take a manifest and leave the partial
    file. The sender can then start over if and only if at most its first chunk is on disk.
  */
  lemma RestartAfterLostManifest(f: Files, u: Upload, digest: Bytes -> Digest, kept: nat, i: nat)
    requires WellCut(u, digest) && ReadyOf(u.meta) !in f.ready && KeyOf(u.meta) !in f.manifests
    requires kept <= |u.chunks| && i < |u.chunks| && Stored(f, KeyOf(u.meta)) == Prefix(u, kept)
    ensures AfterAccept(f, ChunkAt(u, i), digest, 4).1 == Accepted <==> i == 0 && kept <= 1
  {
    var k := KeyOf(u.meta);
    if i == 0 && kept <= 1 {
      assert Prefix(u, 0) == [];
      assert Assembling(f, u, 0);
      CurrentChunk(f, u, digest, 0, 4);
    } else if i == 0 {
      PrefixLength(u, digest, kept - 1);
      PrefixNext(u, kept - 1);
      assert |Stored(f, k)| > CHUNK_BYTES >= |u.chunks[0]|;
      assert PlanAccept(f, ChunkAt(u, i), digest) == Plan([], Rejected(SizeInvalid));
    } else {
      assert PlanAccept(f, ChunkAt(u, i), digest) == Plan([], Rejected(OutOfOrder));
    }
  }

  // The manifest still counts chunks whose bytes are gone.
  ghost predicate PartialLost(f: Files, u: Upload) {
    var k := KeyOf(u.meta);
    && ReadyOf(u.meta) !in f.ready && k !in f.partials
    && k in f.manifests && f.manifests[k].meta == u.meta && 0 < f.manifests[k].nextIndex < |u.chunks|
  }

  /**
    The other half of a stale purge: the partial file goes and its younger manifest stays. The only
    chunk still accepted is a repeat of the last one acknowledged, which is not looked at; no chunk
    changes anything on disk.
  */
  lemma LostPartialAccepts(f: Files, u: Upload, digest: Bytes -> Digest, i: nat, crash: nat)
    requires WellCut(u, digest) && PartialLost(f, u) && i < |u.chunks|
    ensures var (f', o) := AfterAccept(f, ChunkAt(u, i), digest, crash);
      f' == f && (crash > 1 ==> (o == Accepted <==> i + 1 == NextIndex(f, KeyOf(u.meta))))
  {
    var k := KeyOf(u.meta);
    var put := PutManifest(k, Manifest(u.meta, i + 1));
    if i + 1 == NextIndex(f, k) {
      assert PlanAccept(f, ChunkAt(u, i), digest) == Plan([put], Accepted);
      CarryOne(f, put, Accepted, crash);
      assert f.manifests[k := f.manifests[k]] == f.manifests;
    } else if i == NextIndex(f, k) {
      assert i * CHUNK_BYTES > 0;
      assert PlanAccept(f, ChunkAt(u, i), digest) == Plan([], Rejected(SizeInvalid));
    } else {
      assert PlanAccept(f, ChunkAt(u, i), digest) == Plan([], Rejected(OutOfOrder));
    }
  }

  /** So no schedule of the upload's own chunks, in any order, ever completes it while that manifest stays. */
  lemma {:induction false} LostPartialIsStuck(f: Files, u: Upload, digest: Bytes -> Digest, sends: seq<(nat, nat)>)
    requires WellCut(u, digest) && PartialLost(f, u) && forall j :: 0 <= j < |sends| ==> sends[j].0 < |u.chunks|
    ensures AfterEvents(f, seq(|sends|, j requires 0 <= j < |sends| => Deliver(ChunkAt(u, sends[j].0), sends[j].1)), digest) == f
    decreases |sends|
  {
    var events := seq(|sends|, j requires 0 <= j < |sends| => Deliver(ChunkAt(u, sends[j].0), sends[j].1));
    if sends != [] {
      LostPartialAccepts(f, u, digest, sends[0].0, sends[0].1);
      LostPartialIsStuck(f, u, digest, sends[1..]);
      var rest := sends[1..];
      assert events[1..] == seq(|rest|, j requires 0 <= j < |rest| => Deliver(ChunkAt(u, rest[j].0), rest[j].1));
    }
  }
}
