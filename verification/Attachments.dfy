/**
  The outgoing attachment cache: one table of blobs per host, bounded per profile by evicting the
  oldest rows, with the cached messages that refer to them. `Enforce` says what eviction does to the
  tables; `Survives` says, without looking at the loop, which rows it leaves.
*/
module Attachments {
  import opened Wrappers

  type Text = string

  const MAX_ARTIFACT_BYTES := 25 * 1024 * 1024
  const MAX_CACHE_BYTES := 250 * 1024 * 1024
  const MAX_CACHE_ITEMS := 500
  const MAX_ATTACHMENTS_PER_ITEM := 20

  datatype Row = Row(profile: Text, attachmentId: Text, sourceKey: Text, size: nat, createdAt: int, rowid: nat)

  datatype MessageKey = MessageKey(profile: Text, sessionId: Text, itemId: Text)
  datatype Message = Message(textDigest: Text, displayText: Text)
  datatype Reference = Reference(message: MessageKey, position: nat, attachmentId: Text)

  // `rows` in rowid order.
  datatype Tables = Tables(rows: seq<Row>, messages: map<MessageKey, Message>, references: set<Reference>)

  // ---- Queries ----

  function Of(rows: seq<Row>, p: Text): (rs: seq<Row>)
    ensures |rs| <= |rows|
    ensures forall r :: r in rs <==> r in rows && r.profile == p
  {
    if rows == [] then []
    else if rows[0].profile == p then [rows[0]] + Of(rows[1..], p)
    else Of(rows[1..], p)
  }

  function Bytes(rows: seq<Row>): nat { if rows == [] then 0 else rows[0].size + Bytes(rows[1..]) }

  predicate Fits(rows: seq<Row>) { |rows| <= MAX_CACHE_ITEMS && Bytes(rows) <= MAX_CACHE_BYTES }

  // ORDER BY created_at, rowid
  predicate Before(a: Row, b: Row) { a.createdAt < b.createdAt || (a.createdAt == b.createdAt && a.rowid < b.rowid) }

  function Oldest(rows: seq<Row>): (v: Row)
    requires rows != []
    ensures v in rows && forall r :: r in rows ==> !Before(r, v)
  {
    if |rows| == 1 then rows[0]
    else
      var v := Oldest(rows[1..]);
      assert forall r :: r in rows ==> r == rows[0] || r in rows[1..];
      if Before(v, rows[0]) then v else rows[0]
  }

  function Remove(rows: seq<Row>, v: Row): (rs: seq<Row>)
    ensures |rs| <= |rows| && (v in rows ==> |rs| < |rows|)
    ensures forall r :: r in rs <==> r in rows && r != v
  {
    if rows == [] then []
    else if rows[0] == v then Remove(rows[1..], v)
    else [rows[0]] + Remove(rows[1..], v)
  }

  // The profile's rows at least as young as r.
  function AsYoung(rows: seq<Row>, r: Row): (rs: seq<Row>)
    ensures |rs| <= |rows|
    ensures forall x :: x in rs <==> x in rows && x.profile == r.profile && !Before(x, r)
  {
    if rows == [] then []
    else if rows[0].profile == r.profile && !Before(rows[0], r) then [rows[0]] + AsYoung(rows[1..], r)
    else AsYoung(rows[1..], r)
  }

  // ---- Eviction ----

  function Affected(t: Tables, v: Row): set<MessageKey> {
    set x | x in t.references && x.message.profile == v.profile && x.attachmentId == v.attachmentId :: x.message
  }

  function DropMessages(t: Tables, ms: set<MessageKey>): Tables {
    t.(messages := t.messages - ms, references := set x | x in t.references && x.message !in ms)
  }

  lemma DropNext(t: Tables, ms: set<MessageKey>, m: MessageKey)
    ensures DropMessages(DropMessages(t, ms), {m}) == DropMessages(t, ms + {m})
  {
    assert t.messages - ms - {m} == t.messages - (ms + {m});
  }

  lemma DropNone(t: Tables)
    ensures DropMessages(t, {}) == t
  {
    assert t.messages - {} == t.messages;
  }

  function Evict(t: Tables, v: Row): Tables { DropMessages(t, Affected(t, v)).(rows := Remove(t.rows, v)) }

  function Enforce(t: Tables, p: Text): Tables
    decreases |t.rows|
  {
    var rs := Of(t.rows, p);
    if Fits(rs) || rs == [] then t else Enforce(Evict(t, Oldest(rs)), p)
  }

  // ---- Caching a file and a message ----

  function FindSource(rows: seq<Row>, p: Text, key: Text): (found: Option<Row>)
    ensures found.Some? ==> found.value in rows && found.value.profile == p && found.value.sourceKey == key
    ensures found.None? ==> forall r :: r in rows && r.profile == p ==> r.sourceKey != key
  {
    if rows == [] then None
    else if rows[0].profile == p && rows[0].sourceKey == key then Some(rows[0])
    else FindSource(rows[1..], p, key)
  }

  function NextRowid(rows: seq<Row>): nat { if rows == [] then 1 else rows[|rows| - 1].rowid + 1 }

  predicate Clashes(rows: seq<Row>, p: Text, id: Text, key: Text) {
    exists r :: r in rows && r.profile == p && (r.attachmentId == id || r.sourceKey == key)
  }

  // A file on disk, the fresh identifier drawn for it, and the second of its insertion. `readable`: it
  // opens, and holds as many bytes as its size says.
  datatype File = File(sourceKey: Text, size: nat, readable: bool, freshId: Text, now: int)

  predicate Acceptable(f: File) { f.size <= MAX_ARTIFACT_BYTES && f.readable }

  datatype Cached = Stored(row: Row) | Oversized | Unavailable

  function Insert(t: Tables, p: Text, f: File): Tables {
    if Clashes(t.rows, p, f.freshId, f.sourceKey) then t
    else t.(rows := t.rows + [Row(p, f.freshId, f.sourceKey, f.size, f.now, NextRowid(t.rows))])
  }

  function Lookup(t: Tables, p: Text, f: File): Cached {
    match FindSource(t.rows, p, f.sourceKey)
    case Some(row) => Stored(row)
    case None => Unavailable
  }

  function InsertAndEnforce(t: Tables, p: Text, f: File): (Tables, Cached) {
    if f.size > MAX_ARTIFACT_BYTES then (t, Oversized)
    else if !f.readable then (t, Unavailable)
    else
      var t1 := Enforce(Insert(t, p, f), p);
      (t1, Lookup(t1, p, f))
  }

  // A cached file is returned if it survives enforcing the limits now; otherwise it is read again.
  function CacheFile(t: Tables, p: Text, f: File): (Tables, Cached) {
    if FindSource(t.rows, p, f.sourceKey).Some? then
      var t1 := Enforce(t, p);
      if Lookup(t1, p, f).Stored? then (t1, Lookup(t1, p, f)) else InsertAndEnforce(t1, p, f)
    else InsertAndEnforce(t, p, f)
  }

  function CacheItem(t: Tables, m: MessageKey, message: Message, ids: seq<Text>): Tables {
    t.(messages := t.messages[m := message],
       references := (set x | x in t.references && x.message != m)
                     + (set i | 0 <= i < |ids| :: Reference(m, i, ids[i])))
  }

  // The files of a message one after the other, with the row reported for each, if any.
  function CacheFiles(t: Tables, p: Text, fs: seq<File>): (r: (Tables, seq<Option<Row>>))
    ensures |r.1| == |fs|
    decreases |fs|
  {
    if fs == [] then (t, [])
    else
      var (t1, reported) := CacheFiles(t, p, fs[..|fs| - 1]);
      var (t2, cached) := CacheFile(t1, p, fs[|fs| - 1]);
      (t2, reported + [if cached.Stored? then Some(cached.row) else None])
  }

  function Shown(reported: seq<Option<Row>>): seq<Text>
    decreases |reported|
  {
    if reported == [] then []
    else
      var last := reported[|reported| - 1];
      Shown(reported[..|reported| - 1]) + if last.Some? then [last.value.attachmentId] else []
  }

  function Considered(fs: seq<File>): seq<File> {
    if |fs| > MAX_ATTACHMENTS_PER_ITEM then fs[..MAX_ATTACHMENTS_PER_ITEM] else fs
  }

  // Resolving a message that is not cached under its present text.
  function Resolve(t: Tables, m: MessageKey, message: Message, fs: seq<File>): Tables {
    var (t1, reported) := CacheFiles(t, m.profile, Considered(fs));
    if Shown(reported) == [] then t1 else CacheItem(t1, m, message, Shown(reported))
  }

  // ---- The store ----

  class AttachmentStore {
    var rows: seq<Row>
    var messages: map<MessageKey, Message>
    var references: set<Reference>

    function Snapshot(): Tables
      reads this
    {
      Tables(rows, messages, references)
    }

    constructor ()
      ensures Snapshot() == Tables([], map[], {})
    {
      rows, messages, references := [], map[], {};
    }

    method DeleteMessage(m: MessageKey)
      modifies this
      ensures Snapshot() == DropMessages(old(Snapshot()), {m})
    {
      references := set x | x in references && x.message !in {m};
      messages := messages - {m};
    }

    // The messages that show a victim go, one by one.
    method DeleteMessages(affected: set<MessageKey>)
      modifies this
      ensures Snapshot() == DropMessages(old(Snapshot()), affected)
    {
      ghost var before := Snapshot();
      var left := affected;
      DropNone(before);
      while left != {}
        invariant left <= affected
        invariant Snapshot() == DropMessages(before, affected - left)
      {
        var m :| m in left;
        DropNext(before, affected - left, m);
        DeleteMessage(m);
        assert affected - (left - {m}) == (affected - left) + {m};
        left := left - {m};
      }
      assert affected - left == affected;
    }

    method EnforceProfileLimits(profile: Text)
      modifies this
      ensures Snapshot() == Enforce(old(Snapshot()), profile)
    {
      while true
        invariant Enforce(Snapshot(), profile) == Enforce(old(Snapshot()), profile)
        decreases |rows|
      {
        var mine := Of(rows, profile);
        if |mine| <= MAX_CACHE_ITEMS && Bytes(mine) <= MAX_CACHE_BYTES { return; }
        if mine == [] { return; }
        var victim := Oldest(mine);
        DeleteMessages(Affected(Snapshot(), victim));
        rows := Remove(rows, victim);
      }
    }

    method CacheFileRow(profile: Text, file: File) returns (cached: Cached)
      modifies this
      ensures (Snapshot(), cached) == CacheFile(old(Snapshot()), profile, file)
    {
      if FindSource(rows, profile, file.sourceKey).Some? {
        EnforceProfileLimits(profile);
        var existing := FindSource(rows, profile, file.sourceKey);
        if existing.Some? { return Stored(existing.value); }
      }
      if file.size > MAX_ARTIFACT_BYTES { return Oversized; }
      if !file.readable { return Unavailable; }
      if !Clashes(rows, profile, file.freshId, file.sourceKey) {
        rows := rows + [Row(profile, file.freshId, file.sourceKey, file.size, file.now, NextRowid(rows))];
      }
      EnforceProfileLimits(profile);
      var row := FindSource(rows, profile, file.sourceKey);
      return if row.Some? then Stored(row.value) else Unavailable;
    }

    method CacheItemRows(key: MessageKey, message: Message, ids: seq<Text>)
      modifies this
      ensures Snapshot() == CacheItem(old(Snapshot()), key, message, ids)
    {
      messages := messages[key := message];
      references := set x | x in references && x.message != key;
      var position := 0;
      ghost var before := references;
      while position < |ids|
        invariant 0 <= position <= |ids|
        invariant rows == old(rows) && messages == old(messages)[key := message]
        invariant references == before + set i | 0 <= i < position :: Reference(key, i, ids[i])
      {
        references := references + {Reference(key, position, ids[position])};
        position := position + 1;
      }
    }

    method ResolveItem(key: MessageKey, message: Message, files: seq<File>) returns (shown: seq<Text>)
      modifies this
      ensures Snapshot() == Resolve(old(Snapshot()), key, message, files)
      ensures shown == Shown(CacheFiles(old(Snapshot()), key.profile, Considered(files)).1)
    {
      var considered := Considered(files);
      ghost var reported: seq<Option<Row>> := [];
      shown := [];
      var i := 0;
      while i < |considered|
        invariant i <= |considered|
        invariant (Snapshot(), reported) == CacheFiles(old(Snapshot()), key.profile, considered[..i])
        invariant shown == Shown(reported)
      {
        var cached := CacheFileRow(key.profile, considered[i]);
        ghost var row := if cached.Stored? then Some(cached.row) else None;
        assert considered[..i + 1][..i] == considered[..i] && (reported + [row])[..|reported|] == reported;
        reported := reported + [row];
        if cached.Stored? {
          shown := shown + [cached.row.attachmentId];
        }
        i := i + 1;
      }
      assert considered[..i] == considered;
      if shown != [] {
        CacheItemRows(key, message, shown);
      }
    }
  }

  // ---- Which rows survive ----

  ghost predicate RowidsOk(rows: seq<Row>) { forall i, j :: 0 <= i < j < |rows| ==> rows[i].rowid < rows[j].rowid }

  // A row survives exactly when it and the rows of its profile that are no older fit together.
  predicate Survives(rows: seq<Row>, p: Text, r: Row) { r.profile != p || Fits(AsYoung(rows, r)) }

  function EvictedIds(rows: seq<Row>, p: Text): set<Text> {
    set r | r in rows && !Survives(rows, p, r) :: r.attachmentId
  }

  // The profile's messages that show one of these attachments.
  function Showing(references: set<Reference>, p: Text, ids: set<Text>): set<MessageKey> {
    set x | x in references && x.message.profile == p && x.attachmentId in ids :: x.message
  }

  lemma {:induction false} RemoveKeepsRowids(rows: seq<Row>, v: Row)
    requires RowidsOk(rows)
    ensures RowidsOk(Remove(rows, v))
  {
    if rows != [] {
      RemoveKeepsRowids(rows[1..], v);
      var rest := Remove(rows[1..], v);
      forall i | 0 <= i < |rest| ensures rows[0].rowid < rest[i].rowid {
        assert rest[i] in rows[1..];
      }
    }
  }

  lemma {:induction false} AsYoungWithin(rows: seq<Row>, r: Row)
    ensures |AsYoung(rows, r)| <= |Of(rows, r.profile)| && Bytes(AsYoung(rows, r)) <= Bytes(Of(rows, r.profile))
  {
    if rows != [] {
      AsYoungWithin(rows[1..], r);
    }
  }

  lemma {:induction false} AsYoungAsOldest(rows: seq<Row>, v: Row)
    requires forall x :: x in rows && x.profile == v.profile ==> !Before(x, v)
    ensures AsYoung(rows, v) == Of(rows, v.profile)
  {
    if rows != [] {
      assert rows[0] in rows;
      AsYoungAsOldest(rows[1..], v);
    }
  }

  lemma {:induction false} AsYoungWithoutOlder(rows: seq<Row>, v: Row, r: Row)
    requires Before(v, r)
    ensures AsYoung(Remove(rows, v), r) == AsYoung(rows, r)
  {
    if rows != [] {
      AsYoungWithoutOlder(rows[1..], v, r);
    }
  }

  lemma OlderThan(rows: seq<Row>, v: Row, r: Row)
    requires RowidsOk(rows) && v in rows && r in rows && r != v && !Before(r, v)
    ensures Before(v, r)
  {
    var i, j :| 0 <= i < |rows| && rows[i] == r && 0 <= j < |rows| && rows[j] == v;
  }

  // The victim is the oldest row of its profile, so it goes, and no other row's fate changes.
  lemma EvictionStep(rows: seq<Row>, p: Text)
    requires RowidsOk(rows) && !Fits(Of(rows, p)) && Of(rows, p) != []
    ensures var v := Oldest(Of(rows, p));
      v.profile == p && !Survives(rows, p, v)
      && forall r :: r in rows && r != v ==> (Survives(Remove(rows, v), p, r) <==> Survives(rows, p, r))
  {
    var v := Oldest(Of(rows, p));
    AsYoungAsOldest(rows, v);
    forall r | r in rows && r != v && r.profile == p ensures AsYoung(Remove(rows, v), r) == AsYoung(rows, r) {
      OlderThan(rows, v, r);
      AsYoungWithoutOlder(rows, v, r);
    }
  }

  lemma EvictedIdsStep(rows: seq<Row>, p: Text)
    requires RowidsOk(rows) && !Fits(Of(rows, p)) && Of(rows, p) != []
    ensures var v := Oldest(Of(rows, p)); EvictedIds(rows, p) == EvictedIds(Remove(rows, v), p) + {v.attachmentId}
  {
    EvictionStep(rows, p);
  }

  lemma DropTwice(t: Tables, p: Text, v: Row, ids: set<Text>)
    requires v.profile == p
    ensures var t1 := Evict(t, v);
      var t2 := DropMessages(t1, Showing(t1.references, p, ids));
      var once := DropMessages(t, Showing(t.references, p, ids + {v.attachmentId}));
      t2.messages == once.messages && t2.references == once.references
  {
    var t1 := Evict(t, v);
    assert Showing(t1.references, p, ids) + Affected(t, v) == Showing(t.references, p, ids + {v.attachmentId});
    assert t.messages - Affected(t, v) - Showing(t1.references, p, ids) == t.messages - (Affected(t, v) + Showing(t1.references, p, ids));
  }

  /**
    What eviction does, without the loop. It always ends within both limits; a row is kept if and only
    if it survives, so the evicted rows are the shortest oldest-first prefix of the profile; rows of
    other profiles all stay; and exactly the messages that showed an evicted row go, with all their references.
  */
  lemma {:induction false} EnforceOutcome(t: Tables, p: Text)
    requires RowidsOk(t.rows)
    ensures var t' := Enforce(t, p);
      && Fits(Of(t'.rows, p)) && RowidsOk(t'.rows)
      && (forall r :: r in t'.rows <==> r in t.rows && Survives(t.rows, p, r))
      && t'.messages == DropMessages(t, Showing(t.references, p, EvictedIds(t.rows, p))).messages
      && t'.references == DropMessages(t, Showing(t.references, p, EvictedIds(t.rows, p))).references
    decreases |t.rows|
  {
    var rs := Of(t.rows, p);
    if Fits(rs) {
      forall r | r in t.rows ensures Survives(t.rows, p, r) {
        AsYoungWithin(t.rows, r);
      }
      assert EvictedIds(t.rows, p) == {};
      assert Showing(t.references, p, {}) == {};
      DropNone(t);
    } else {
      assert rs != [];
      var v := Oldest(rs);
      var t1 := Evict(t, v);
      RemoveKeepsRowids(t.rows, v);
      EnforceOutcome(t1, p);
      EvictionStep(t.rows, p);
      EvictedIdsStep(t.rows, p);
      DropTwice(t, p, v, EvictedIds(t1.rows, p));
    }
  }

  /** In figures: a row of the profile is kept if and only if it and the rows no older are at most 500 and hold at most 250 MiB. */
  lemma KeptIff(t: Tables, p: Text, r: Row)
    requires RowidsOk(t.rows)
    ensures var younger := AsYoung(t.rows, r);
      r in Enforce(t, p).rows <==> r in t.rows && (r.profile != p || (|younger| <= 500 && Bytes(younger) <= 262144000))
  {
    EnforceOutcome(t, p);
    hide Enforce, AsYoung;
  }

  // ---- Every cached message shows rows that exist ----

  ghost predicate Present(rows: seq<Row>, p: Text, id: Text) {
    exists r :: r in rows && r.profile == p && r.attachmentId == id
  }

  ghost predicate NoDangling(t: Tables) {
    forall x :: x in t.references ==> Present(t.rows, x.message.profile, x.attachmentId)
  }

  /** Eviction never leaves a message pointing at a row it removed. */
  lemma EnforceKeepsReferences(t: Tables, p: Text)
    requires RowidsOk(t.rows) && NoDangling(t)
    ensures NoDangling(Enforce(t, p))
  {
    EnforceOutcome(t, p);
    var t' := Enforce(t, p);
    forall x | x in t'.references ensures Present(t'.rows, x.message.profile, x.attachmentId) {
      var r :| r in t.rows && r.profile == x.message.profile && r.attachmentId == x.attachmentId;
      if !Survives(t.rows, p, r) {
      }
    }
  }

  // ---- Inserting the youngest row ----

  // The clock reads no earlier than any row of the profile, and the file is new to it.
  ghost predicate Newest(rows: seq<Row>, p: Text, f: File) {
    && Acceptable(f)
    && forall r :: r in rows && r.profile == p ==> r.createdAt <= f.now && r.attachmentId != f.freshId && r.sourceKey != f.sourceKey
  }

  function RowFor(rows: seq<Row>, p: Text, f: File): Row {
    Row(p, f.freshId, f.sourceKey, f.size, f.now, NextRowid(rows))
  }

  lemma InsertNewest(t: Tables, p: Text, f: File)
    requires RowidsOk(t.rows) && Newest(t.rows, p, f)
    ensures var t1 := Insert(t, p, f);
      var n := RowFor(t.rows, p, f);
      && t1.rows == t.rows + [n] && RowidsOk(t1.rows) && (forall r :: r in t1.rows <==> r in t.rows || r == n)
      && t1.references == t.references && (forall r :: r in t.rows && r.profile == p ==> Before(r, n))
  {
    forall r | r in t.rows ensures r.rowid < NextRowid(t.rows) {
      var i :| 0 <= i < |t.rows| && t.rows[i] == r;
    }
  }

  lemma {:induction false} AsYoungAppend(rows: seq<Row>, n: Row, r: Row)
    ensures AsYoung(rows + [n], r) == AsYoung(rows, r) + if n.profile == r.profile && !Before(n, r) then [n] else []
  {
    if rows == [] {
      assert rows + [n] == [n];
    } else {
      assert (rows + [n])[1..] == rows[1..] + [n];
      AsYoungAppend(rows[1..], n, r);
    }
  }

  lemma {:induction false} AsYoungNone(rows: seq<Row>, n: Row)
    requires forall r :: r in rows && r.profile == n.profile ==> Before(r, n)
    ensures AsYoung(rows, n) == []
  {
    if rows != [] {
      assert rows[0] in rows;
      AsYoungNone(rows[1..], n);
    }
  }

  lemma {:induction false} SourceFound(rows: seq<Row>, p: Text, n: Row)
    requires n in rows && n.profile == p
    requires forall r :: r in rows && r.profile == p && r.sourceKey == n.sourceKey ==> r == n
    ensures FindSource(rows, p, n.sourceKey) == Some(n)
  {
    assert rows[0] in rows;
    if !(rows[0].profile == p && rows[0].sourceKey == n.sourceKey) {
      SourceFound(rows[1..], p, n);
    }
  }

  lemma NewIsYoungest(t: Tables, p: Text, f: File)
    requires RowidsOk(t.rows) && Newest(t.rows, p, f)
    ensures var n := RowFor(t.rows, p, f); AsYoung(Insert(t, p, f).rows, n) == [n]
  {
    var n := RowFor(t.rows, p, f);
    InsertNewest(t, p, f);
    AsYoungNone(t.rows, n);
    AsYoungAppend(t.rows, n, n);
  }

  // The youngest row of a table, if it is small enough to be cached at all.
  lemma YoungestSurvives(t: Tables, p: Text, n: Row)
    requires RowidsOk(t.rows) && n in t.rows && n.profile == p && AsYoung(t.rows, n) == [n] && n.size <= MAX_ARTIFACT_BYTES
    requires forall r :: r in t.rows && r.profile == p && r.sourceKey == n.sourceKey ==> r == n
    ensures n in Enforce(t, p).rows && FindSource(Enforce(t, p).rows, p, n.sourceKey) == Some(n)
  {
    EnforceOutcome(t, p);
    assert [n][1..] == [] && Fits([n]);
    SourceFound(Enforce(t, p).rows, p, n);
  }

  /**
    A new file, with a clock that does not run backwards: its row is the youngest, is never the victim
    of its own insertion, and is what the caller gets.
  */
  lemma NewestSurvives(t: Tables, p: Text, f: File)
    requires RowidsOk(t.rows) && Newest(t.rows, p, f)
    ensures var (t', cached) := CacheFile(t, p, f);
      && t' == Enforce(Insert(t, p, f), p) && cached == Stored(RowFor(t.rows, p, f)) && RowFor(t.rows, p, f) in t'.rows
  {
    InsertNewest(t, p, f);
    NewIsYoungest(t, p, f);
    YoungestSurvives(Insert(t, p, f), p, RowFor(t.rows, p, f));
  }

  lemma {:induction false} BytesAppend(rows: seq<Row>, n: Row)
    ensures Bytes(rows + [n]) == Bytes(rows) + n.size
  {
    if rows == [] {
      assert rows + [n] == [n];
    } else {
      assert (rows + [n])[1..] == rows[1..] + [n];
      BytesAppend(rows[1..], n);
    }
  }

  // Eviction leaves the rows no older than a survivor exactly as they were.
  lemma {:induction false} EnforceKeepsYounger(t: Tables, p: Text, r: Row)
    requires RowidsOk(t.rows) && r in t.rows && r.profile == p && Survives(t.rows, p, r)
    ensures AsYoung(Enforce(t, p).rows, r) == AsYoung(t.rows, r)
    decreases |t.rows|
  {
    var rs := Of(t.rows, p);
    if !Fits(rs) {
      var v := Oldest(rs);
      EvictionStep(t.rows, p);
      assert r in rs && r != v && !Before(r, v);
      OlderThan(t.rows, v, r);
      AsYoungWithoutOlder(t.rows, v, r);
      RemoveKeepsRowids(t.rows, v);
      EnforceKeepsYounger(Evict(t, v), p, r);
    }
  }

  // What one more file does to an earlier row.
  lemma NextFile(t: Tables, p: Text, f: File, r: Row)
    requires RowidsOk(t.rows) && Newest(t.rows, p, f) && r in t.rows && r.profile == p
    ensures var t' := CacheFile(t, p, f).0;
      var young := AsYoung(t.rows, r) + [RowFor(t.rows, p, f)];
      && RowidsOk(t'.rows) && (r in t'.rows <==> Fits(young)) && (r in t'.rows ==> AsYoung(t'.rows, r) == young)
  {
    var n := RowFor(t.rows, p, f);
    NewestSurvives(t, p, f);
    InsertNewest(t, p, f);
    AsYoungAppend(t.rows, n, r);
    var t1 := Insert(t, p, f);
    EnforceOutcome(t1, p);
    assert r in t1.rows;
    if Fits(AsYoung(t1.rows, r)) {
      EnforceKeepsYounger(t1, p, r);
    }
  }

  // ---- Resolving one message ----

  function Sum(sizes: seq<nat>): nat
    decreases |sizes|
  {
    if sizes == [] then 0 else Sum(sizes[..|sizes| - 1]) + sizes[|sizes| - 1]
  }

  // These rows fit the limits together with new rows of these sizes.
  predicate FitWith(rows: seq<Row>, added: seq<nat>) {
    |rows| + |added| <= MAX_CACHE_ITEMS && Bytes(rows) + Sum(added) <= MAX_CACHE_BYTES
  }

  // The row of a file that is still there once rows of these sizes were added to the table.
  function Kept(rows: seq<Row>, p: Text, f: File, added: seq<nat>): Option<Row> {
    match FindSource(rows, p, f.sourceKey)
    case Some(r) => if FitWith(AsYoung(rows, r), added) then Some(r) else None
    case None => None
  }

  // The sizes of the rows that resolving these files adds to a table, read off the table as it is.
  function Added(rows: seq<Row>, p: Text, fs: seq<File>): seq<nat>
    decreases |fs|
  {
    if fs == [] then []
    else
      var before, f := Added(rows, p, fs[..|fs| - 1]), fs[|fs| - 1];
      if Kept(rows, p, f, before).None? && Acceptable(f) then before + [f.size] else before
  }

  /**
    Whether file i is still cached once all files are: the row it is found in must fit with the rows no
    older than it and all that is added; a row added for it must fit with all that is added from it on.
  */
  predicate StaysCached(rows: seq<Row>, p: Text, fs: seq<File>, i: nat)
    requires i < |fs|
  {
    var before, all := Added(rows, p, fs[..i]), Added(rows, p, fs);
    match Kept(rows, p, fs[i], before)
    case Some(r) => FitWith(AsYoung(rows, r), all)
    case None => Acceptable(fs[i]) && |before| <= |all| ==> FitWith([], all[|before|..])
  }

  // Both keys of the table are unique within a profile.
  ghost predicate UniqueRows(rows: seq<Row>) {
    forall a, b :: (a in rows && b in rows && a.profile == b.profile
                    && (a.attachmentId == b.attachmentId || a.sourceKey == b.sourceKey)) ==> a == b
  }

  // The clock never falls behind a row, identifiers are fresh, and no file is listed twice.
  ghost predicate Steady(rows: seq<Row>, p: Text, fs: seq<File>) {
    && (forall r, i :: r in rows && r.profile == p && 0 <= i < |fs| ==> r.createdAt <= fs[i].now && r.attachmentId != fs[i].freshId)
    && (forall i, j :: 0 <= i < j < |fs| ==>
          fs[i].now <= fs[j].now && fs[i].freshId != fs[j].freshId && fs[i].sourceKey != fs[j].sourceKey)
  }

  lemma CachedRows(t: Tables, p: Text, f: File)
    requires RowidsOk(t.rows) && Newest(t.rows, p, f)
    ensures var t1 := CacheFile(t, p, f).0;
      RowidsOk(t1.rows) && forall r :: r in t1.rows ==> r in t.rows || r == RowFor(t.rows, p, f)
  {
    NewestSurvives(t, p, f);
    InsertNewest(t, p, f);
    EnforceOutcome(Insert(t, p, f), p);
  }

  lemma FirstFile(t: Tables, p: Text, f: File)
    requires RowidsOk(t.rows) && Newest(t.rows, p, f)
    ensures var t1 := CacheFile(t, p, f).0;
      AsYoung(t1.rows, RowFor(t.rows, p, f)) == [RowFor(t.rows, p, f)]
  {
    var n := RowFor(t.rows, p, f);
    NewestSurvives(t, p, f);
    InsertNewest(t, p, f);
    NewIsYoungest(t, p, f);
    EnforceOutcome(Insert(t, p, f), p);
    EnforceKeepsYounger(Insert(t, p, f), p, n);
  }

  // The fate of one row while `young` is what came to be no older than it: there with exactly these, or lost.
  ghost predicate Fate(rows: seq<Row>, p: Text, r: Row, young: seq<Row>) {
    if Fits(young) then r in rows && AsYoung(rows, r) == young else !(r in rows && Survives(rows, p, r))
  }

  lemma FateEnforced(t: Tables, p: Text, r: Row, young: seq<Row>)
    requires RowidsOk(t.rows) && r.profile == p && Fate(t.rows, p, r, young)
    ensures Fate(Enforce(t, p).rows, p, r, young)
  {
    EnforceOutcome(t, p);
    hide Enforce;
    if Fits(young) {
      EnforceKeepsYounger(t, p, r);
    }
  }

  lemma FateInserted(t: Tables, p: Text, f: File, r: Row, young: seq<Row>)
    requires RowidsOk(t.rows) && Newest(t.rows, p, f) && r.profile == p && Fate(t.rows, p, r, young)
    requires r.attachmentId != f.freshId
    ensures Fate(CacheFile(t, p, f).0.rows, p, r, young + [RowFor(t.rows, p, f)])
  {
    CachedRows(t, p, f);
    BytesAppend(young, RowFor(t.rows, p, f));
    BytesAppend(AsYoung(t.rows, r), RowFor(t.rows, p, f));
    hide CacheFile, RowFor, Newest;
    if r in t.rows {
      NextFile(t, p, f, r);
    }
  }

  ghost predicate Made(n: Row, p: Text, f: File) {
    n.profile == p && n.attachmentId == f.freshId && n.sourceKey == f.sourceKey && n.size == f.size && n.createdAt == f.now
  }

  // What the table holds after the first k files, `ins` being the rows inserted for them: every row's
  // fate is told by the rows it started with and by `ins`.
  ghost predicate Tracks(rows: seq<Row>, now: seq<Row>, p: Text, ins: seq<Row>, fs: seq<File>, k: nat) {
    && RowidsOk(now) && k <= |fs|
    && (forall r :: r in rows && r.profile == p ==> Fate(now, p, r, AsYoung(rows, r) + ins))
    && (forall j :: 0 <= j < |ins| ==> ins[j].profile == p && Fate(now, p, ins[j], ins[j..]))
    && (forall r :: r in now && r.profile == p ==> r in rows || r in ins)
    && (forall r :: r in ins ==> exists i :: 0 <= i < k && Made(r, p, fs[i]))
    && (forall i, j :: 0 <= i < j < |ins| ==> ins[i].attachmentId != ins[j].attachmentId)
  }

  lemma TracksEnforced(rows: seq<Row>, t: Tables, p: Text, ins: seq<Row>, fs: seq<File>, k: nat)
    requires Tracks(rows, t.rows, p, ins, fs, k)
    ensures Tracks(rows, Enforce(t, p).rows, p, ins, fs, k)
  {
    EnforceOutcome(t, p);
    hide Enforce, Fate, Made;
    forall r | r in rows && r.profile == p ensures Fate(Enforce(t, p).rows, p, r, AsYoung(rows, r) + ins) {
      FateEnforced(t, p, r, AsYoung(rows, r) + ins);
    }
    forall j | 0 <= j < |ins| ensures Fate(Enforce(t, p).rows, p, ins[j], ins[j..]) {
      FateEnforced(t, p, ins[j], ins[j..]);
    }
  }

  lemma TracksSkipped(rows: seq<Row>, now: seq<Row>, p: Text, ins: seq<Row>, fs: seq<File>, k: nat)
    requires Tracks(rows, now, p, ins, fs, k) && k < |fs|
    ensures Tracks(rows, now, p, ins, fs, k + 1)
  {
    hide Fate, Made;
    forall r | r in ins ensures exists i :: 0 <= i < k + 1 && Made(r, p, fs[i]) {
      var i :| 0 <= i < k && Made(r, p, fs[i]);
    }
  }

  // The next file is new to every row the table can hold by now.
  lemma NextIsFresh(rows: seq<Row>, now: seq<Row>, p: Text, ins: seq<Row>, fs: seq<File>, k: nat)
    requires Tracks(rows, now, p, ins, fs, k) && k < |fs| && Steady(rows, p, fs)
    ensures forall r :: (r in rows || r in ins) && r.profile == p ==> r.createdAt <= fs[k].now && r.attachmentId != fs[k].freshId
    ensures forall r :: r in ins ==> r.sourceKey != fs[k].sourceKey
  {
    hide Fate;
    forall r | r in ins ensures r.createdAt <= fs[k].now && r.attachmentId != fs[k].freshId && r.sourceKey != fs[k].sourceKey {
      var i :| 0 <= i < k && Made(r, p, fs[i]);
    }
  }

  lemma NewRowFate(t: Tables, p: Text, f: File)
    requires RowidsOk(t.rows) && Newest(t.rows, p, f)
    ensures var n := RowFor(t.rows, p, f); Made(n, p, f) && Fate(CacheFile(t, p, f).0.rows, p, n, [n])
  {
    var n := RowFor(t.rows, p, f);
    NewestSurvives(t, p, f);
    FirstFile(t, p, f);
    BytesAppend([], n);
    assert [] + [n] == [n] && Fits([n]);
    hide CacheFile;
  }

  lemma InsertedFates(rows: seq<Row>, t: Tables, p: Text, ins: seq<Row>, f: File)
    requires RowidsOk(t.rows) && Newest(t.rows, p, f)
    requires forall r :: r in rows && r.profile == p ==> Fate(t.rows, p, r, AsYoung(rows, r) + ins) && r.attachmentId != f.freshId
    requires forall j :: 0 <= j < |ins| ==> ins[j].profile == p && Fate(t.rows, p, ins[j], ins[j..]) && ins[j].attachmentId != f.freshId
    ensures var now, ins' := CacheFile(t, p, f).0.rows, ins + [RowFor(t.rows, p, f)];
      && (forall r :: r in rows && r.profile == p ==> Fate(now, p, r, AsYoung(rows, r) + ins'))
      && (forall j :: 0 <= j < |ins'| ==> ins'[j].profile == p && Fate(now, p, ins'[j], ins'[j..]))
  {
    hide CacheFile, RowFor, Fate, Newest, RowidsOk, AsYoung;
    var n := RowFor(t.rows, p, f);
    var now, ins' := CacheFile(t, p, f).0.rows, ins + [n];
    NewRowFate(t, p, f);
    assert ins'[|ins|..] == [n];
    forall r | r in rows && r.profile == p ensures Fate(now, p, r, AsYoung(rows, r) + ins') {
      FateInserted(t, p, f, r, AsYoung(rows, r) + ins);
      assert AsYoung(rows, r) + ins + [n] == AsYoung(rows, r) + ins';
    }
    forall j | 0 <= j < |ins'| ensures ins'[j].profile == p && Fate(now, p, ins'[j], ins'[j..]) {
      if j < |ins| {
        FateInserted(t, p, f, ins[j], ins[j..]);
        assert ins[j..] + [n] == ins'[j..];
      }
    }
  }

  lemma TracksInserted(rows: seq<Row>, t: Tables, p: Text, ins: seq<Row>, fs: seq<File>, k: nat)
    requires Tracks(rows, t.rows, p, ins, fs, k) && k < |fs| && Steady(rows, p, fs)
    requires Acceptable(fs[k]) && FindSource(t.rows, p, fs[k].sourceKey).None?
    ensures Newest(t.rows, p, fs[k])
    ensures Tracks(rows, CacheFile(t, p, fs[k]).0.rows, p, ins + [RowFor(t.rows, p, fs[k])], fs, k + 1)
  {
    NextIsFresh(rows, t.rows, p, ins, fs, k);
    var f, n := fs[k], RowFor(t.rows, p, fs[k]);
    assert Newest(t.rows, p, f);
    hide CacheFile, RowFor, Fate, Made, Newest, FindSource, Fits, Steady, AsYoung, Acceptable;
    var ins' := ins + [n];
    NewRowFate(t, p, f);
    CachedRows(t, p, f);
    assert forall j :: 0 <= j < |ins| ==> ins[j] in ins;
    InsertedFates(rows, t, p, ins, f);
    forall i, j | 0 <= i < j < |ins'| ensures ins'[i].attachmentId != ins'[j].attachmentId {
      MadeIsFresh(n, p, f);
    }
    forall r | r in ins' ensures exists i :: 0 <= i < k + 1 && Made(r, p, fs[i]) {
      if r in ins {
        var i :| 0 <= i < k && Made(r, p, fs[i]);
      }
    }
  }

  lemma MadeIsFresh(n: Row, p: Text, f: File)
    requires Made(n, p, f)
    ensures n.attachmentId == f.freshId && n.profile == p
  {
  }

  function SizesOf(rows: seq<Row>): seq<nat> { seq(|rows|, i requires 0 <= i < |rows| => rows[i].size) }

  lemma {:induction false} BytesJoin(a: seq<Row>, b: seq<Row>)
    ensures Bytes(a + b) == Bytes(a) + Sum(SizesOf(b))
    ensures Fits(a + b) <==> FitWith(a, SizesOf(b))
    decreases |b|
  {
    if b == [] {
      assert a + b == a;
    } else {
      var init, last := b[..|b| - 1], b[|b| - 1];
      BytesJoin(a, init);
      BytesAppend(a + init, last);
      assert a + b == (a + init) + [last] && SizesOf(b)[..|b| - 1] == SizesOf(init);
    }
  }

  // The one row of a file, found in the table as it is now.
  lemma FoundIsKept(rows: seq<Row>, now: seq<Row>, p: Text, ins: seq<Row>, fs: seq<File>, k: nat)
    requires Tracks(rows, now, p, ins, fs, k) && k < |fs| && Steady(rows, p, fs) && UniqueRows(rows)
    ensures var kept := Kept(rows, p, fs[k], SizesOf(ins));
      var found := FindSource(now, p, fs[k].sourceKey);
      && (kept.Some? ==> found == kept && Survives(now, p, kept.value))
      && (found.Some? && kept.None? ==> !Survives(now, p, found.value))
      && (found.Some? ==> found.value in rows)
  {
    NextIsFresh(rows, now, p, ins, fs, k);
    var original := FindSource(rows, p, fs[k].sourceKey);
    if original.Some? {
      BytesJoin(AsYoung(rows, original.value), ins);
    }
  }

  lemma InsertedFits(t: Tables, p: Text, f: File)
    requires RowidsOk(t.rows) && Newest(t.rows, p, f)
    ensures Fits(Of(CacheFile(t, p, f).0.rows, p))
  {
    NewestSurvives(t, p, f);
    InsertNewest(t, p, f);
    EnforceOutcome(Insert(t, p, f), p);
  }

  // A row that does not survive is not found again once the limits are enforced.
  lemma StillAbsent(rows: seq<Row>, t: Tables, p: Text, ins: seq<Row>, fs: seq<File>, k: nat)
    requires Tracks(rows, t.rows, p, ins, fs, k) && k < |fs| && Steady(rows, p, fs) && UniqueRows(rows)
    requires Kept(rows, p, fs[k], SizesOf(ins)).None?
    ensures var t0 := if FindSource(t.rows, p, fs[k].sourceKey).Some? then Enforce(t, p) else t;
      FindSource(t0.rows, p, fs[k].sourceKey).None? && CacheFile(t, p, fs[k]) == CacheFile(t0, p, fs[k])
  {
    FoundIsKept(rows, t.rows, p, ins, fs, k);
    NextIsFresh(rows, t.rows, p, ins, fs, k);
    EnforceOutcome(t, p);
    hide Enforce, Kept, Fate, Made;
  }

  // How one more file of the message is cached: kept, inserted or skipped.
  ghost predicate ResolvesTo(rows: seq<Row>, t: Tables, p: Text, ins: seq<Row>, fs: seq<File>, k: nat, n: Option<Row>) {
    k < |fs|
    && var (t1, cached) := CacheFile(t, p, fs[k]);
    var kept := Kept(rows, p, fs[k], SizesOf(ins));
    && Tracks(rows, t1.rows, p, if n.Some? then ins + [n.value] else ins, fs, k + 1)
    && (n.Some? <==> kept.None? && Acceptable(fs[k])) && (n.Some? ==> Made(n.value, p, fs[k]))
    && (cached.Stored? <==> kept.Some? || n.Some?)
    && (cached.Stored? ==> cached.row == (if kept.Some? then kept.value else n.value) && Fits(Of(t1.rows, p)))
    && (Fits(Of(t.rows, p)) ==> Fits(Of(t1.rows, p)))
  }

  lemma NextKept(rows: seq<Row>, t: Tables, p: Text, ins: seq<Row>, fs: seq<File>, k: nat)
    requires Tracks(rows, t.rows, p, ins, fs, k) && k < |fs| && Steady(rows, p, fs) && UniqueRows(rows)
    requires Kept(rows, p, fs[k], SizesOf(ins)).Some?
    ensures ResolvesTo(rows, t, p, ins, fs, k, None)
  {
    FoundIsKept(rows, t.rows, p, ins, fs, k);
    EnforceOutcome(t, p);
    TracksEnforced(rows, t, p, ins, fs, k);
    FoundIsKept(rows, Enforce(t, p).rows, p, ins, fs, k);
    TracksSkipped(rows, Enforce(t, p).rows, p, ins, fs, k);
    hide Tracks, Kept, Enforce, FindSource, AsYoung, SizesOf, Fits, Steady, UniqueRows;
  }

  lemma NextNew(rows: seq<Row>, t: Tables, p: Text, ins: seq<Row>, fs: seq<File>, k: nat) returns (n: Option<Row>)
    requires Tracks(rows, t.rows, p, ins, fs, k) && k < |fs| && Steady(rows, p, fs)
    requires Kept(rows, p, fs[k], SizesOf(ins)).None? && FindSource(t.rows, p, fs[k].sourceKey).None?
    ensures ResolvesTo(rows, t, p, ins, fs, k, n)
  {
    n := None;
    if Acceptable(fs[k]) {
      TracksInserted(rows, t, p, ins, fs, k);
      NewestSurvives(t, p, fs[k]);
      InsertedFits(t, p, fs[k]);
      NewRowFate(t, p, fs[k]);
      n := Some(RowFor(t.rows, p, fs[k]));
      hide Tracks, Kept, CacheFile, SizesOf, Fits, Fate, Made;
    } else {
      TracksSkipped(rows, t.rows, p, ins, fs, k);
      hide Tracks, Kept, SizesOf, Fits, Enforce;
    }
  }

  lemma NextResolved(rows: seq<Row>, t: Tables, p: Text, ins: seq<Row>, fs: seq<File>, k: nat) returns (n: Option<Row>)
    requires Tracks(rows, t.rows, p, ins, fs, k) && k < |fs| && Steady(rows, p, fs) && UniqueRows(rows)
    ensures ResolvesTo(rows, t, p, ins, fs, k, n)
  {
    if Kept(rows, p, fs[k], SizesOf(ins)).Some? {
      NextKept(rows, t, p, ins, fs, k);
      n := None;
    } else {
      var found := FindSource(t.rows, p, fs[k].sourceKey);
      var t0 := if found.Some? then Enforce(t, p) else t;
      FoundIsKept(rows, t.rows, p, ins, fs, k);
      StillAbsent(rows, t, p, ins, fs, k);
      EnforceOutcome(t, p);
      TracksEnforced(rows, t, p, ins, fs, k);
      n := NextNew(rows, t0, p, ins, fs, k);
      hide Tracks, Kept, Enforce, CacheFile, FindSource, SizesOf, Fits, Steady, UniqueRows, Made;
    }
  }

  lemma CachingKeepsReferences(t: Tables, p: Text, f: File)
    requires RowidsOk(t.rows) && NoDangling(t)
    ensures NoDangling(CacheFile(t, p, f).0)
  {
    hide Enforce, Insert, NoDangling, FindSource, RowidsOk, Of, Fits, Survives;
    if FindSource(t.rows, p, f.sourceKey).Some? {
      EnforceKeepsReferences(t, p);
      EnforceOutcome(t, p);
      InsertingKeepsReferences(Enforce(t, p), p, f);
    } else {
      InsertingKeepsReferences(t, p, f);
    }
  }

  lemma InsertingKeepsReferences(t: Tables, p: Text, f: File)
    requires RowidsOk(t.rows) && NoDangling(t)
    ensures NoDangling(Enforce(Insert(t, p, f), p))
  {
    var t1 := Insert(t, p, f);
    assert RowidsOk(t1.rows) && forall r :: r in t.rows ==> r in t1.rows;
    EnforceKeepsReferences(t1, p);
    hide Enforce;
  }

  lemma {:induction false} AddedPrefix(rows: seq<Row>, p: Text, fs: seq<File>, i: nat)
    requires i <= |fs|
    ensures Added(rows, p, fs[..i]) <= Added(rows, p, fs)
    decreases |fs|
  {
    if i < |fs| {
      AddedPrefix(rows, p, fs[..|fs| - 1], i);
      assert fs[..|fs| - 1][..i] == fs[..i];
    } else {
      assert fs[..i] == fs;
    }
  }

  lemma AddedNext(rows: seq<Row>, p: Text, fs: seq<File>, i: nat)
    requires i < |fs|
    ensures Added(rows, p, fs[..i + 1])
            == Added(rows, p, fs[..i]) + if Kept(rows, p, fs[i], Added(rows, p, fs[..i])).None? && Acceptable(fs[i]) then [fs[i].size] else []
  {
    assert fs[..i + 1][..i] == fs[..i];
  }

  // The row reported for file i, `ins` being the rows inserted.
  function ReportOf(rows: seq<Row>, p: Text, fs: seq<File>, ins: seq<Row>, i: nat): Option<Row>
    requires i < |fs|
  {
    var before := Added(rows, p, fs[..i]);
    match Kept(rows, p, fs[i], before)
    case Some(r) => Some(r)
    case None => if Acceptable(fs[i]) && |before| < |ins| then Some(ins[|before|]) else None
  }

  lemma ReportsExtend(rows: seq<Row>, p: Text, fs: seq<File>, ins: seq<Row>, n: Option<Row>, i: nat)
    requires i + 1 < |fs| && SizesOf(ins) == Added(rows, p, fs[..|fs| - 1])
    ensures ReportOf(rows, p, fs[..|fs| - 1], ins, i) == ReportOf(rows, p, fs, if n.Some? then ins + [n.value] else ins, i)
  {
    var init := fs[..|fs| - 1];
    assert init[..i] == fs[..i] && init[..i + 1] == fs[..i + 1];
    AddedNext(rows, p, init, i);
    AddedPrefix(rows, p, init, i + 1);
    hide Added, Kept;
  }

  // After all files: the rows inserted, what is reported, and limits and references in order.
  ghost predicate Resolved(rows: seq<Row>, t1: Tables, reported: seq<Option<Row>>, p: Text, fs: seq<File>, ins: seq<Row>) {
    && |reported| == |fs| && Tracks(rows, t1.rows, p, ins, fs, |fs|) && SizesOf(ins) == Added(rows, p, fs)
    && (forall i :: 0 <= i < |fs| ==> reported[i] == ReportOf(rows, p, fs, ins, i))
    && (forall i :: 0 <= i < |fs| && reported[i].Some? ==> Fits(Of(t1.rows, p)))
    && NoDangling(t1)
  }

  lemma TracksLonger(rows: seq<Row>, now: seq<Row>, p: Text, ins: seq<Row>, fs: seq<File>)
    requires fs != [] && Tracks(rows, now, p, ins, fs[..|fs| - 1], |fs| - 1)
    ensures Tracks(rows, now, p, ins, fs, |fs| - 1)
  {
    hide Fate, Made;
    forall r | r in ins ensures exists i :: 0 <= i < |fs| - 1 && Made(r, p, fs[i]) {
      var i :| 0 <= i < |fs| - 1 && Made(r, p, fs[..|fs| - 1][i]);
    }
  }

  lemma LastReport(rows: seq<Row>, p: Text, fs: seq<File>, ins: seq<Row>, n: Option<Row>)
    requires fs != [] && SizesOf(ins) == Added(rows, p, fs[..|fs| - 1])
    requires n.Some? <==> Kept(rows, p, fs[|fs| - 1], SizesOf(ins)).None? && Acceptable(fs[|fs| - 1])
    requires n.Some? ==> n.value.size == fs[|fs| - 1].size
    ensures var ins' := if n.Some? then ins + [n.value] else ins;
      && SizesOf(ins') == Added(rows, p, fs)
      && ReportOf(rows, p, fs, ins', |fs| - 1) == if n.Some? then n else Kept(rows, p, fs[|fs| - 1], SizesOf(ins))
  {
    AddedNext(rows, p, fs, |fs| - 1);
    assert fs[..|fs| - 1 + 1] == fs;
    hide Added, Kept;
    if n.Some? {
      assert SizesOf(ins + [n.value]) == SizesOf(ins) + [n.value.size];
    }
  }

  lemma {:induction false} ResolvesAll(t: Tables, p: Text, fs: seq<File>) returns (ins: seq<Row>)
    requires RowidsOk(t.rows) && UniqueRows(t.rows) && NoDangling(t) && Steady(t.rows, p, fs)
    ensures var (t1, reported) := CacheFiles(t, p, fs); Resolved(t.rows, t1, reported, p, fs, ins)
    decreases |fs|
  {
    if fs == [] {
      ins := [];
      NothingResolved(t, p);
    } else {
      var k := |fs| - 1;
      var before := ResolvesAll(t, p, fs[..k]);
      var (t1, reported) := CacheFiles(t, p, fs[..k]);
      hide CacheFile, Resolved;
      TracksLonger(t.rows, t1.rows, p, before, fs);
      var n := NextResolved(t.rows, t1, p, before, fs, k);
      ins := if n.Some? then before + [n.value] else before;
      ResolvesNext(t.rows, t1, reported, p, fs, before, n);
    }
  }

  // The reports so far stand, and the last file adds its own.
  lemma ReportsNext(rows: seq<Row>, reported: seq<Option<Row>>, p: Text, fs: seq<File>, before: seq<Row>, n: Option<Row>)
    requires fs != [] && |reported| == |fs| - 1 && SizesOf(before) == Added(rows, p, fs[..|fs| - 1])
    requires forall i :: 0 <= i < |fs| - 1 ==> reported[i] == ReportOf(rows, p, fs[..|fs| - 1], before, i)
    requires n.Some? <==> Kept(rows, p, fs[|fs| - 1], SizesOf(before)).None? && Acceptable(fs[|fs| - 1])
    requires n.Some? ==> n.value.size == fs[|fs| - 1].size
    ensures var ins := if n.Some? then before + [n.value] else before;
      var last := if n.Some? then n else Kept(rows, p, fs[|fs| - 1], SizesOf(before));
      && SizesOf(ins) == Added(rows, p, fs)
      && forall i :: 0 <= i < |fs| ==> (reported + [last])[i] == ReportOf(rows, p, fs, ins, i)
  {
    hide Added, Kept, ReportOf, SizesOf, Acceptable;
    LastReport(rows, p, fs, before, n);
    var ins := if n.Some? then before + [n.value] else before;
    forall i | 0 <= i < |fs| - 1 ensures reported[i] == ReportOf(rows, p, fs, ins, i) {
      ReportsExtend(rows, p, fs, before, n, i);
    }
  }

  lemma ResolvesNext(rows: seq<Row>, t: Tables, reported: seq<Option<Row>>, p: Text, fs: seq<File>, before: seq<Row>, n: Option<Row>)
    requires fs != [] && Resolved(rows, t, reported, p, fs[..|fs| - 1], before)
    requires ResolvesTo(rows, t, p, before, fs, |fs| - 1, n)
    ensures var (t1, cached) := CacheFile(t, p, fs[|fs| - 1]);
      Resolved(rows, t1, reported + [if cached.Stored? then Some(cached.row) else None], p, fs, if n.Some? then before + [n.value] else before)
  {
    hide Added, Kept, ReportOf, CacheFile, Fits, SizesOf, NoDangling, Of, Acceptable, Fate, RowidsOk, Resolved;
    ResolvedParts(rows, t, reported, p, fs[..|fs| - 1], before);
    CachingKeepsReferences(t, p, fs[|fs| - 1]);
    ReportsNext(rows, reported, p, fs, before, n);
    hide Tracks;
    var (t1, cached) := CacheFile(t, p, fs[|fs| - 1]);
    ResolvedWhole(rows, t1, reported + [if cached.Stored? then Some(cached.row) else None], p, fs, if n.Some? then before + [n.value] else before);
  }

  lemma ResolvedParts(rows: seq<Row>, t1: Tables, reported: seq<Option<Row>>, p: Text, fs: seq<File>, ins: seq<Row>)
    requires Resolved(rows, t1, reported, p, fs, ins)
    ensures |reported| == |fs| && SizesOf(ins) == Added(rows, p, fs) && RowidsOk(t1.rows) && NoDangling(t1)
    ensures forall i :: 0 <= i < |fs| ==> reported[i] == ReportOf(rows, p, fs, ins, i)
    ensures forall i :: 0 <= i < |fs| && reported[i].Some? ==> Fits(Of(t1.rows, p))
  {
    hide Added, Kept, ReportOf, Fits, SizesOf, NoDangling, Of, Fate;
  }

  lemma ResolvedWhole(rows: seq<Row>, t1: Tables, reported: seq<Option<Row>>, p: Text, fs: seq<File>, ins: seq<Row>)
    requires |reported| == |fs| && Tracks(rows, t1.rows, p, ins, fs, |fs|) && SizesOf(ins) == Added(rows, p, fs) && NoDangling(t1)
    requires forall i :: 0 <= i < |fs| ==> reported[i] == ReportOf(rows, p, fs, ins, i)
    requires forall i :: 0 <= i < |fs| && reported[i].Some? ==> Fits(Of(t1.rows, p))
    ensures Resolved(rows, t1, reported, p, fs, ins)
  {
    hide Added, Kept, ReportOf, Fits, SizesOf, NoDangling, Of, Tracks;
  }

  lemma NothingResolved(t: Tables, p: Text)
    requires RowidsOk(t.rows) && NoDangling(t)
    ensures Resolved(t.rows, t, [], p, [], [])
  {
    forall r | r in t.rows && r.profile == p ensures Fate(t.rows, p, r, AsYoung(t.rows, r) + []) {
      assert AsYoung(t.rows, r) + [] == AsYoung(t.rows, r);
    }
  }

  lemma KeptStays(rows: seq<Row>, now: seq<Row>, p: Text, fs: seq<File>, ins: seq<Row>, i: nat)
    requires Tracks(rows, now, p, ins, fs, |fs|) && SizesOf(ins) == Added(rows, p, fs) && i < |fs| && Fits(Of(now, p))
    requires Kept(rows, p, fs[i], Added(rows, p, fs[..i])).Some?
    ensures StaysCached(rows, p, fs, i) <==> Kept(rows, p, fs[i], Added(rows, p, fs[..i])).value in now
  {
    var r := Kept(rows, p, fs[i], Added(rows, p, fs[..i])).value;
    hide Added, Fate, Fits;
    BytesJoin(AsYoung(rows, r), ins);
    FateDecides(now, p, r, AsYoung(rows, r) + ins);
  }

  lemma TailFits(ins: seq<Row>, k: nat)
    requires k <= |ins|
    ensures Fits(ins[k..]) <==> FitWith([], SizesOf(ins)[k..])
  {
    hide Bytes, Sum, Fits, FitWith;
    var tail := ins[k..];
    BytesJoin([], tail);
    assert [] + tail == tail && SizesOf(tail) == SizesOf(ins)[k..];
  }

  lemma InsertedStays(rows: seq<Row>, now: seq<Row>, p: Text, fs: seq<File>, ins: seq<Row>, i: nat)
    requires Tracks(rows, now, p, ins, fs, |fs|) && SizesOf(ins) == Added(rows, p, fs) && i < |fs| && Fits(Of(now, p))
    requires Kept(rows, p, fs[i], Added(rows, p, fs[..i])).None? && Acceptable(fs[i]) && |Added(rows, p, fs[..i])| < |ins|
    ensures StaysCached(rows, p, fs, i) <==> ins[|Added(rows, p, fs[..i])|] in now
  {
    var k := |Added(rows, p, fs[..i])|;
    AddedPrefix(rows, p, fs, i);
    assert Fate(now, p, ins[k], ins[k..]) && ins[k].profile == p;
    hide Tracks, Added, Kept, Fate, Fits, FitWith, SizesOf;
    TailFits(ins, k);
    FateDecides(now, p, ins[k], ins[k..]);
  }

  // A row reported for a file is in the table at the end exactly if the file stays cached, and its
  // identifier names no other row.
  lemma ReportedStays(rows: seq<Row>, t1: Tables, reported: seq<Option<Row>>, p: Text, fs: seq<File>, ins: seq<Row>, i: nat)
    requires Resolved(rows, t1, reported, p, fs, ins) && UniqueRows(rows) && Steady(rows, p, fs) && i < |fs|
    ensures if reported[i].Some? then StaysCached(rows, p, fs, i) <==> Present(t1.rows, p, reported[i].value.attachmentId)
            else StaysCached(rows, p, fs, i)
  {
    AddedNext(rows, p, fs, i);
    AddedPrefix(rows, p, fs, i + 1);
    hide Added, Present, Fits, SizesOf, NoDangling;
    if reported[i].Some? {
      if Kept(rows, p, fs[i], Added(rows, p, fs[..i])).Some? {
        KeptStays(rows, t1.rows, p, fs, ins, i);
      } else {
        InsertedStays(rows, t1.rows, p, fs, ins, i);
      }
      hide StaysCached;
      PresentIsIn(rows, t1.rows, p, ins, fs, reported[i].value);
    }
  }

  lemma FateDecides(now: seq<Row>, p: Text, r: Row, young: seq<Row>)
    requires Fate(now, p, r, young) && Fits(Of(now, p)) && r.profile == p
    ensures r in now <==> Fits(young)
  {
    AsYoungWithin(now, r);
  }

  lemma PresentIsIn(rows: seq<Row>, now: seq<Row>, p: Text, ins: seq<Row>, fs: seq<File>, x: Row)
    requires Tracks(rows, now, p, ins, fs, |fs|) && UniqueRows(rows) && Steady(rows, p, fs)
    requires (x in rows || x in ins) && x.profile == p
    ensures Present(now, p, x.attachmentId) <==> x in now
  {
    hide Fate;
    forall n, r | n in ins && r in rows && r.profile == p ensures n.attachmentId != r.attachmentId {
      var i :| 0 <= i < |fs| && Made(n, p, fs[i]);
    }
    if r :| r in now && r.profile == p && r.attachmentId == x.attachmentId {
      if r in ins && x in ins {
        var i, j :| 0 <= i < |ins| && ins[i] == r && 0 <= j < |ins| && ins[j] == x;
      }
    }
  }

  lemma {:induction false} ShownMeans(reported: seq<Option<Row>>, id: Text)
    ensures id in Shown(reported) <==> exists i :: 0 <= i < |reported| && reported[i].Some? && reported[i].value.attachmentId == id
    decreases |reported|
  {
    if reported != [] {
      var init := reported[..|reported| - 1];
      ShownMeans(init, id);
      forall i | 0 <= i < |reported| && reported[i].Some? && reported[i].value.attachmentId == id ensures id in Shown(reported) {
        if i < |init| {
          assert init[i] == reported[i];
        }
      }
      if id in Shown(init) {
        var i :| 0 <= i < |init| && init[i].Some? && init[i].value.attachmentId == id;
        assert reported[i] == init[i];
      }
    }
  }

  lemma CachedItemDangles(t: Tables, m: MessageKey, message: Message, ids: seq<Text>)
    requires NoDangling(t)
    ensures NoDangling(CacheItem(t, m, message, ids)) <==> forall id :: id in ids ==> Present(t.rows, m.profile, id)
  {
    var cached := CacheItem(t, m, message, ids);
    if NoDangling(cached) {
      forall id | id in ids ensures Present(t.rows, m.profile, id) {
        var i :| 0 <= i < |ids| && ids[i] == id;
        assert Reference(m, i, ids[i]) in cached.references;
      }
    }
  }

  // What is shown is what was reported, so everything shown is present exactly if every file stays cached.
  lemma ShownIsPresent(rows: seq<Row>, t1: Tables, reported: seq<Option<Row>>, p: Text, fs: seq<File>, ins: seq<Row>)
    requires Resolved(rows, t1, reported, p, fs, ins) && UniqueRows(rows) && Steady(rows, p, fs)
    ensures (forall id :: id in Shown(reported) ==> Present(t1.rows, p, id)) <==> (forall i :: 0 <= i < |fs| ==> StaysCached(rows, p, fs, i))
  {
    var ids := Shown(reported);
    hide StaysCached, Present, Shown, ReportOf, Tracks, Added, SizesOf;
    forall i | 0 <= i < |fs|
      ensures StaysCached(rows, p, fs, i) <==> reported[i].None? || Present(t1.rows, p, reported[i].value.attachmentId)
      ensures reported[i].Some? ==> reported[i].value.attachmentId in ids
    {
      ReportedStays(rows, t1, reported, p, fs, ins, i);
      if reported[i].Some? {
        ShownMeans(reported, reported[i].value.attachmentId);
      }
    }
    if forall i :: 0 <= i < |fs| ==> StaysCached(rows, p, fs, i) {
      forall id | id in ids ensures Present(t1.rows, p, id) {
        ShownMeans(reported, id);
        var i :| 0 <= i < |fs| && reported[i].Some? && reported[i].value.attachmentId == id;
        assert StaysCached(rows, p, fs, i);
      }
    }
  }

  /**
    Resolving a message, whichever of its files are new, cached already, too large or unreadable, leaves
    every cached message with all its rows if and only if each file stays cached: the row it was found in
    fits with all rows no older and all that the message adds, and a row added for it fits with all that
    is added after it. Otherwise a later file evicts what an earlier one was reported as.
  */
  lemma MessageDanglesIff(t: Tables, m: MessageKey, message: Message, fs: seq<File>)
    requires RowidsOk(t.rows) && UniqueRows(t.rows) && NoDangling(t) && Steady(t.rows, m.profile, Considered(fs))
    ensures NoDangling(Resolve(t, m, message, fs))
            <==> forall i :: 0 <= i < |Considered(fs)| ==> StaysCached(t.rows, m.profile, Considered(fs), i)
  {
    var p, files := m.profile, Considered(fs);
    var ins := ResolvesAll(t, p, files);
    var (t1, reported) := CacheFiles(t, p, files);
    ShownIsPresent(t.rows, t1, reported, p, files, ins);
    CachedItemDangles(t1, m, message, Shown(reported));
    hide CacheFiles, CacheItem, Tracks, StaysCached, Shown, ReportOf, NoDangling, Present, Considered, Steady, UniqueRows;
  }

  function FileSizes(fs: seq<File>): seq<nat> { seq(|fs|, i requires 0 <= i < |fs| => fs[i].size) }

  lemma {:induction false} SumSuffix(sizes: seq<nat>, i: nat)
    requires i <= |sizes|
    ensures Sum(sizes[i..]) <= Sum(sizes)
    decreases |sizes|
  {
    if i < |sizes| {
      var init := sizes[..|sizes| - 1];
      SumSuffix(init, i);
      assert sizes[i..][..|sizes| - i - 1] == init[i..];
    }
  }

  ghost predicate AllNew(rows: seq<Row>, p: Text, fs: seq<File>) {
    forall i :: 0 <= i < |fs| ==> Acceptable(fs[i]) && FindSource(rows, p, fs[i].sourceKey).None?
  }

  lemma {:induction false} NewAreAdded(rows: seq<Row>, p: Text, fs: seq<File>)
    requires AllNew(rows, p, fs)
    ensures Added(rows, p, fs) == FileSizes(fs)
    decreases |fs|
  {
    hide FindSource, Acceptable;
    if fs != [] {
      NewAreAdded(rows, p, fs[..|fs| - 1]);
      assert FileSizes(fs) == FileSizes(fs[..|fs| - 1]) + [fs[|fs| - 1].size];
    }
  }

  lemma NewStaysCached(rows: seq<Row>, p: Text, fs: seq<File>, i: nat)
    requires AllNew(rows, p, fs) && |fs| <= MAX_ATTACHMENTS_PER_ITEM && i < |fs|
    ensures StaysCached(rows, p, fs, i) <==> Sum(FileSizes(fs)[i..]) <= MAX_CACHE_BYTES
  {
    hide Added, Sum, FindSource, AsYoung;
    NewAreAdded(rows, p, fs);
    NewAreAdded(rows, p, fs[..i]);
    assert Acceptable(fs[i]) && Kept(rows, p, fs[i], FileSizes(fs[..i])).None?;
  }

  lemma TotalDecides(sizes: seq<nat>)
    ensures Sum(sizes) <= MAX_CACHE_BYTES <==> forall i :: 0 <= i < |sizes| ==> Sum(sizes[i..]) <= MAX_CACHE_BYTES
  {
    forall i | 0 <= i < |sizes| ensures Sum(sizes[i..]) <= Sum(sizes) {
      SumSuffix(sizes, i);
    }
    if sizes != [] {
      assert sizes[0..] == sizes;
    }
  }

  /** For a message of new files alone the condition comes down to their total size. */
  lemma NewMessageDanglesIff(t: Tables, m: MessageKey, message: Message, fs: seq<File>)
    requires RowidsOk(t.rows) && UniqueRows(t.rows) && NoDangling(t) && Steady(t.rows, m.profile, Considered(fs))
    requires AllNew(t.rows, m.profile, Considered(fs))
    ensures NoDangling(Resolve(t, m, message, fs)) <==> Sum(FileSizes(Considered(fs))) <= MAX_CACHE_BYTES
  {
    MessageDanglesIff(t, m, message, fs);
    TotalDecides(FileSizes(Considered(fs)));
    assert |Considered(fs)| <= MAX_ATTACHMENTS_PER_ITEM;
    hide Resolve, NoDangling, Steady, UniqueRows, Considered, Sum, RowidsOk, StaysCached, AllNew;
    forall i | 0 <= i < |Considered(fs)|
      ensures StaysCached(t.rows, m.profile, Considered(fs), i) <==> Sum(FileSizes(Considered(fs))[i..]) <= MAX_CACHE_BYTES
    {
      NewStaysCached(t.rows, m.profile, Considered(fs), i);
    }
  }

  function Name(i: nat): Text { seq(i, _ => 'x') }

  // A profile filled by ten files of the largest size, the first cached the oldest.
  function FullProfile(): seq<Row> { seq(10, i requires 0 <= i < 10 => Row("p", Name(i), Name(i), MAX_ARTIFACT_BYTES, 0, i + 1)) }

  lemma {:induction false} BytesOfEqual(rows: seq<Row>, size: nat)
    requires forall i :: 0 <= i < |rows| ==> rows[i].size == size
    ensures Bytes(rows) == |rows| * size
  {
    if rows != [] {
      BytesOfEqual(rows[1..], size);
      assert |rows| * size == (|rows| - 1) * size + size;
    }
  }

  lemma {:induction false} OfAll(rows: seq<Row>, p: Text)
    requires forall i :: 0 <= i < |rows| ==> rows[i].profile == p
    ensures Of(rows, p) == rows
  {
    if rows != [] {
      OfAll(rows[1..], p);
    }
  }

  lemma FullProfileRows(i: nat)
    requires i < 10
    ensures |FullProfile()| == 10 && FullProfile()[i] == Row("p", Name(i), Name(i), MAX_ARTIFACT_BYTES, 0, i + 1) && |Name(i)| == i
  {
  }

  lemma FullProfileUnique()
    ensures RowidsOk(FullProfile()) && UniqueRows(FullProfile())
  {
    var rows := FullProfile();
    forall a, b | a in rows && b in rows && (a.attachmentId == b.attachmentId || a.sourceKey == b.sourceKey) ensures a == b {
      var i, j :| 0 <= i < 10 && rows[i] == a && 0 <= j < 10 && rows[j] == b;
      FullProfileRows(i);
      FullProfileRows(j);
    }
  }

  lemma FullProfileFits()
    ensures var rows := FullProfile();
      Of(rows, "p") == rows && Fits(rows) && !FitWith(rows, [1]) && AsYoung(rows, rows[0]) == rows
  {
    hide FullProfile, Bytes, Of, Name, AsYoung, Fits, FitWith, Sum;
    var rows := FullProfile();
    FullProfileRows(0);
    forall i | 0 <= i < 10 ensures rows[i].profile == "p" && rows[i].size == MAX_ARTIFACT_BYTES {
      FullProfileRows(i);
    }
    TenLargeFiles(rows);
    forall r | r in rows ensures !Before(r, rows[0]) {
      var i :| 0 <= i < 10 && rows[i] == r;
      FullProfileRows(i);
    }
    AsYoungAsOldest(rows, rows[0]);
  }

  lemma TenLargeFiles(rows: seq<Row>)
    requires |rows| == 10 && forall i :: 0 <= i < 10 ==> rows[i].profile == "p" && rows[i].size == MAX_ARTIFACT_BYTES
    ensures Of(rows, "p") == rows && Fits(rows) && !FitWith(rows, [1])
  {
    OfAll(rows, "p");
    BytesOfEqual(rows, MAX_ARTIFACT_BYTES);
    SumOne(1);
    hide Bytes, Of, Sum;
  }

  lemma SumOne(n: nat)
    ensures Sum([n]) == n
  {
    assert [n][..0] == [];
  }

  lemma SumTwo(m: nat, n: nat)
    ensures Sum([m, n]) == m + n
  {
    SumOne(m);
    assert [m, n][..1] == [m];
  }

  // The first file is found in the oldest row; the second is new, and a row of size one evicts the oldest.
  lemma FirstIsLost(rows: seq<Row>, files: seq<File>)
    requires |files| == 2 && rows != [] && Fits(rows) && !FitWith(rows, [1]) && AsYoung(rows, rows[0]) == rows
    requires FindSource(rows, "p", files[0].sourceKey) == Some(rows[0]) && FindSource(rows, "p", files[1].sourceKey).None?
    requires Acceptable(files[1]) && files[1].size == 1
    ensures !StaysCached(rows, "p", files, 0)
  {
    hide AsYoung, FindSource, Bytes;
    assert files[..0] == [] && files[..1][..0] == [] && files[..2] == files;
    AddedNext(rows, "p", files, 0);
    AddedNext(rows, "p", files, 1);
    assert Added(rows, "p", files) == [1];
  }

  lemma FullProfileSteady(b: File, a: File)
    requires b.sourceKey == Name(0) && b.freshId == Name(11) && a.sourceKey == Name(10) && a.freshId == Name(12)
    requires b.now == 0 && a.now == 0
    ensures Steady(FullProfile(), "p", [b, a]) && FindSource(FullProfile(), "p", a.sourceKey).None?
    ensures FindSource(FullProfile(), "p", b.sourceKey) == Some(FullProfile()[0])
  {
    assert |Name(0)| == 0 && |Name(10)| == 10 && |Name(11)| == 11 && |Name(12)| == 12;
    FullProfileRows(0);
    forall r | r in FullProfile() ensures |r.attachmentId| < 10 && r.attachmentId == r.sourceKey && r.createdAt == 0 {
      var i :| 0 <= i < 10 && FullProfile()[i] == r;
      FullProfileRows(i);
    }
    FullProfileUnique();
    hide FullProfile, Name, RowidsOk;
    assert FullProfile()[0] in FullProfile();
  }

  const OLD_FILE := File(Name(0), MAX_ARTIFACT_BYTES, true, Name(11), 0)
  const NEW_FILE := File(Name(10), 1, true, Name(12), 0)

  const ITEM := MessageKey("p", "s", "i")

  // The profile with the message as it was cached under its earlier text, showing the first file.
  function CachedBefore(earlier: Message): Tables { Tables(FullProfile(), map[ITEM := earlier], {Reference(ITEM, 0, Name(0))}) }

  lemma EarlierIsPresent(earlier: Message)
    ensures NoDangling(CachedBefore(earlier))
  {
    FullProfileRows(0);
    hide FullProfile, Name;
    assert FullProfile()[0] in FullProfile();
  }

  lemma OldFileIsLost()
    ensures var files := [OLD_FILE, NEW_FILE];
      Steady(FullProfile(), "p", files) && !StaysCached(FullProfile(), "p", files, 0)
  {
    FullProfileFits();
    FullProfileSteady(OLD_FILE, NEW_FILE);
    hide FullProfile, Steady, Fits, FitWith, AsYoung, FindSource, Name, Of;
    FirstIsLost(FullProfile(), [OLD_FILE, NEW_FILE]);
  }

  lemma TwoFilesAreSmall()
    ensures Sum(FileSizes([OLD_FILE, NEW_FILE])) <= MAX_CACHE_BYTES
  {
    SumTwo(MAX_ARTIFACT_BYTES, 1);
    assert FileSizes([OLD_FILE, NEW_FILE]) == [MAX_ARTIFACT_BYTES, 1];
  }

  /**
    Re-resolving a message whose text changed, in a full profile: its first file is cached already, from
    its earlier text and as the oldest row, and its second is new. Inserting the second evicts the first
    after it was reported, with the message as it was cached before, and the message is cached with it
    again although its files fit the limit together many times over.
  */
  lemma RepeatedFileDangles(earlier: Message, message: Message)
    ensures var t := CachedBefore(earlier);
      && Fits(Of(t.rows, "p")) && Sum(FileSizes([OLD_FILE, NEW_FILE])) <= MAX_CACHE_BYTES && NoDangling(t)
      && !NoDangling(Resolve(t, ITEM, message, [OLD_FILE, NEW_FILE]))
  {
    FullProfileUnique();
    FullProfileFits();
    EarlierIsPresent(earlier);
    OldFileIsLost();
    TwoFilesAreSmall();
    var files := [OLD_FILE, NEW_FILE];
    assert Considered(files) == files;
    hide Resolve, Steady, UniqueRows, RowidsOk, FullProfile, Fits, FitWith, Sum, AsYoung, Name, StaysCached, Of, Considered, NoDangling, FileSizes;
    MessageDanglesIff(CachedBefore(earlier), ITEM, message, files);
  }

  // ---- What caching a file comes to ----

  // The rows of the profile are the young ones of before, and perhaps the file's own; nothing of another profile moves.
  ghost predicate OnlyOwn(t: Tables, t': Tables, p: Text, f: File) {
    && (forall r: Row :: r.profile != p ==> (r in t'.rows <==> r in t.rows))
    && (forall r :: r in t'.rows ==> r in t.rows || (Made(r, p, f) && f.readable && f.size <= 26214400))
    && (forall k :: k in t'.messages ==> k in t.messages && t'.messages[k] == t.messages[k]) && t'.references <= t.references
    && (forall k :: k in t.messages && k.profile != p ==> k in t'.messages)
  }

  lemma EnforceOnly(t: Tables, p: Text, f: File)
    requires RowidsOk(t.rows)
    ensures OnlyOwn(t, Enforce(t, p), p, f) && RowidsOk(Enforce(t, p).rows)
  {
    EnforceOutcome(t, p);
    hide Enforce, AsYoung, Fits;
  }

  lemma OnlyThenOnly(t: Tables, t1: Tables, t2: Tables, p: Text, f: File)
    requires OnlyOwn(t, t1, p, f) && OnlyOwn(t1, t2, p, f)
    ensures OnlyOwn(t, t2, p, f)
  {
    hide Made;
    forall r: Row | r.profile != p ensures r in t2.rows <==> r in t.rows {
      assert r in t1.rows <==> r in t.rows;
    }
  }

  lemma InsertedOnly(t: Tables, p: Text, f: File)
    requires Acceptable(f)
    ensures OnlyOwn(t, Insert(t, p, f), p, f)
  {
    var t1 := Insert(t, p, f);
    var n := RowFor(t.rows, p, f);
    assert Made(n, p, f);
    assert forall r :: r in t1.rows ==> r in t.rows || r == n;
    assert forall r :: r in t.rows ==> r in t1.rows;
    hide Made, Clashes, RowFor;
  }

  lemma InsertOnly(t: Tables, p: Text, f: File)
    requires RowidsOk(t.rows) && Acceptable(f)
    ensures OnlyOwn(t, Enforce(Insert(t, p, f), p), p, f)
  {
    hide Enforce, Insert, OnlyOwn, RowidsOk;
    InsertKeepsRowids(t, p, f);
    InsertedOnly(t, p, f);
    EnforceOnly(Insert(t, p, f), p, f);
    OnlyThenOnly(t, Insert(t, p, f), Enforce(Insert(t, p, f), p), p, f);
  }

  lemma InsertKeepsRowids(t: Tables, p: Text, f: File)
    requires RowidsOk(t.rows)
    ensures RowidsOk(Insert(t, p, f).rows)
  {
  }

  /**
    Caching a file. What is reported is a row of the profile that holds the file and is in the table; a file
    of more than 25 MiB is reported as such and an unreadable one as unavailable, unless a row for it is
    still there; and at most the file's own row is added, while rows and messages of other profiles stay.
  */
  lemma CacheFileMeans(t: Tables, p: Text, f: File)
    requires RowidsOk(t.rows)
    ensures var (t', cached) := CacheFile(t, p, f);
      && OnlyOwn(t, t', p, f)
      && (cached.Stored? ==> cached.row in t'.rows && cached.row.profile == p && cached.row.sourceKey == f.sourceKey)
      && (!cached.Stored? ==> forall r :: r in t'.rows && r.profile == p ==> r.sourceKey != f.sourceKey)
      && (cached.Oversized? <==> f.size > 26214400 && forall r :: r in t'.rows && r.profile == p ==> r.sourceKey != f.sourceKey)
  {
    CacheFileOnly(t, p, f);
    hide OnlyOwn, Enforce, Insert, FindSource, RowidsOk;
    LookupMeans(Enforce(t, p), p, f);
    LookupMeans(Enforce(Insert(t, p, f), p), p, f);
    LookupMeans(Enforce(Insert(Enforce(t, p), p, f), p), p, f);
    LookupMeans(t, p, f);
  }

  lemma CacheFileOnly(t: Tables, p: Text, f: File)
    requires RowidsOk(t.rows)
    ensures OnlyOwn(t, CacheFile(t, p, f).0, p, f)
  {
    hide Enforce, Insert, FindSource, RowidsOk, OnlyOwn, Lookup;
    var t1 := Enforce(t, p);
    EnforceOnly(t, p, f);
    NothingMoves(t, p, f);
    if Acceptable(f) {
      InsertOnly(t, p, f);
      InsertOnly(t1, p, f);
      OnlyThenOnly(t, t1, Enforce(Insert(t1, p, f), p), p, f);
    }
  }

  lemma NothingMoves(t: Tables, p: Text, f: File)
    ensures OnlyOwn(t, t, p, f)
  {
  }

  lemma LookupMeans(t: Tables, p: Text, f: File)
    ensures var found := Lookup(t, p, f);
      && (found.Stored? <==> FindSource(t.rows, p, f.sourceKey).Some?) && (found.Stored? || found.Unavailable?)
      && (found.Stored? ==> found.row in t.rows && found.row.profile == p && found.row.sourceKey == f.sourceKey)
      && (!found.Stored? ==> forall r :: r in t.rows && r.profile == p ==> r.sourceKey != f.sourceKey)
  {
  }

  // ---- Reading a message back ----

  // A reference of the message that still finds its row.
  ghost predicate Joined(t: Tables, m: MessageKey, x: Reference) {
    x in t.references && x.message == m && Present(t.rows, m.profile, x.attachmentId)
  }

  // These attachments, at these ascending positions, are all that the message still shows.
  ghost predicate Listing(t: Tables, m: MessageKey, positions: seq<nat>, ids: seq<Text>) {
    && |positions| == |ids| && (forall i, j :: 0 <= i < j < |positions| ==> positions[i] < positions[j])
    && (forall i :: 0 <= i < |ids| ==> Joined(t, m, Reference(m, positions[i], ids[i])))
    && (forall x :: Joined(t, m, x) ==> exists i :: 0 <= i < |ids| && x == Reference(m, positions[i], ids[i]))
  }

  // _cached_item: the text kept for the message under this digest, and the rows its references find, by position.
  ghost predicate ReadsAs(t: Tables, m: MessageKey, digest: Text, text: Text, ids: seq<Text>) {
    m in t.messages && t.messages[m] == Message(digest, text) && exists positions :: Listing(t, m, positions, ids)
  }

  lemma {:induction false} AscendingIsCounting(positions: seq<nat>, n: nat, k: nat)
    requires forall i, j :: 0 <= i < j < |positions| ==> positions[i] < positions[j]
    requires (forall i :: 0 <= i < |positions| ==> positions[i] < n) && forall x :: 0 <= x < n ==> x in positions
    requires k <= |positions|
    ensures forall i :: 0 <= i < k ==> positions[i] == i
    ensures k == |positions| ==> |positions| == n
  {
    if k > 0 {
      AscendingIsCounting(positions, n, k - 1);
      var i := k - 1;
      assert i > 0 ==> positions[i - 1] < positions[i];
      assert i < n && i in positions;
      var j :| 0 <= j < |positions| && positions[j] == i;
      assert j >= i;
    }
    if k == |positions| {
      assert |positions| !in positions;
    }
  }

  lemma CachedListing(t: Tables, m: MessageKey, message: Message, ids: seq<Text>)
    requires forall id :: id in ids ==> Present(t.rows, m.profile, id)
    ensures forall x :: Joined(CacheItem(t, m, message, ids), m, x) <==> exists i: nat :: i < |ids| && x == Reference(m, i, ids[i])
  {
  }

  /** A message that is cached with rows that exist is read back as it was: under its digest, its text, and its attachments in order. */
  lemma CachedReadsBack(t: Tables, m: MessageKey, message: Message, ids: seq<Text>, digest: Text, text: Text, others: seq<Text>)
    requires forall id :: id in ids ==> Present(t.rows, m.profile, id)
    ensures ReadsAs(CacheItem(t, m, message, ids), m, digest, text, others) <==> message == Message(digest, text) && others == ids
  {
    var t' := CacheItem(t, m, message, ids);
    CachedListing(t, m, message, ids);
    hide CacheItem, Joined;
    assert t'.messages == t.messages[m := message] by { CacheItemKeeps(t, m, message, ids); }
    var counting: seq<nat> := seq(|ids|, i => i);
    assert Listing(t', m, counting, ids) by {
      forall i | 0 <= i < |ids| ensures Joined(t', m, Reference(m, counting[i], ids[i])) {
      }
      forall x | Joined(t', m, x) ensures exists i :: 0 <= i < |ids| && x == Reference(m, counting[i], ids[i]) {
        var i: nat :| i < |ids| && x == Reference(m, i, ids[i]);
        assert counting[i] == i;
      }
    }
    if positions :| Listing(t', m, positions, others) {
      ListingIsUnique(t', m, positions, others, ids);
    }
  }

  lemma CacheItemKeeps(t: Tables, m: MessageKey, message: Message, ids: seq<Text>)
    ensures var t' := CacheItem(t, m, message, ids);
      && t'.messages == t.messages[m := message] && t'.rows == t.rows
      && (forall x: Reference :: x.message != m ==> (x in t'.references <==> x in t.references))
  {
  }

  lemma ListingIsUnique(t: Tables, m: MessageKey, positions: seq<nat>, others: seq<Text>, ids: seq<Text>)
    requires Listing(t, m, positions, others)
    requires forall x :: Joined(t, m, x) <==> exists i: nat :: i < |ids| && x == Reference(m, i, ids[i])
    ensures others == ids
  {
    hide Joined;
    forall i | 0 <= i < |positions| ensures positions[i] < |ids| && others[i] == ids[positions[i]] {
      assert Joined(t, m, Reference(m, positions[i], others[i]));
    }
    forall x: nat | x < |ids| ensures x in positions {
      assert Joined(t, m, Reference(m, x, ids[x]));
      var i :| 0 <= i < |others| && Reference(m, x, ids[x]) == Reference(m, positions[i], others[i]);
      assert positions[i] == x;
    }
    AscendingIsCounting(positions, |ids|, |positions|);
  }

  /**
    The round trip. Resolving a message that shows something caches its text and the attachments it shows,
    and no other message's; if each of them is still there, reading it under the digest of its text gives
    exactly that, and under no other digest anything. Resolving one that shows nothing caches nothing.
  */
  lemma ResolvedReadsBack(t: Tables, m: MessageKey, message: Message, fs: seq<File>, digest: Text, text: Text, others: seq<Text>)
    ensures var t' := Resolve(t, m, message, fs);
      var considered := if |fs| > 20 then fs[..20] else fs;
      var (t1, reported) := CacheFiles(t, m.profile, considered);
      var shown := Shown(reported);
      && t'.rows == t1.rows && (shown == [] ==> t' == t1)
      && (shown != [] ==>
            && t'.messages == t1.messages[m := message] && (forall x: Reference :: x.message != m ==> (x in t'.references <==> x in t1.references))
            && ((forall id :: id in shown ==> Present(t'.rows, m.profile, id)) ==>
                  (ReadsAs(t', m, digest, text, others) <==> message == Message(digest, text) && others == shown)))
  {
    var (t1, reported) := CacheFiles(t, m.profile, Considered(fs));
    hide CacheFiles, CacheItem, ReadsAs, Shown;
    var shown := Shown(reported);
    CacheItemKeeps(t1, m, message, shown);
    if forall id :: id in shown ==> Present(t1.rows, m.profile, id) {
      CachedReadsBack(t1, m, message, shown, digest, text, others);
    }
  }
}
