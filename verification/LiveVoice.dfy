/**
  Two bounded structures of the live voice provider: the cutting of a result text into frames of at
  most 500 UTF-8 bytes, and the event buffer between the transport and its one consumer.
*/
module LiveVoice {
  import opened Sequences
  import opened Strings
  import opened Wrappers

  const MAX_CHUNK_BYTES := 500
  const MAX_RESULT_UNITS := 1800
  const MAX_RESULT_BYTES := 7200
  const MAX_EVENT_COUNT := 32
  const MAX_EVENT_BYTES := 1048576

  // ---- Chunking ----

  // A Python string is a sequence of code points, surrogates included.
  type CodePoint = c: int | 0 <= c <= 0x10FFFF
  type Text = seq<CodePoint>

  // UTF-8 excludes the surrogates.
  predicate IsSurrogate(c: CodePoint) { 0xD800 <= c <= 0xDFFF }

  function Bytes(t: Text): nat { if t == [] then 0 else Width(t[0]) + Bytes(t[1..]) }

  // UTF-16 code units.
  function Units(t: Text): nat { if t == [] then 0 else (if t[0] <= 0xFFFF then 1 else 2) + Units(t[1..]) }

  predicate Blank(t: Text) { forall i :: 0 <= i < |t| ==> IsSpace(t[i]) }

  // str.isspace
  predicate IsSpace(c: CodePoint) {
    0x09 <= c <= 0x0D || 0x1C <= c <= 0x20 || c == 0x85 || c == 0xA0 || c == 0x1680 || 0x2000 <= c <= 0x200A
    || c == 0x2028 || c == 0x2029 || c == 0x202F || c == 0x205F || c == 0x3000
  }

  predicate Encodable(t: Text) { forall i :: 0 <= i < |t| ==> !IsSurrogate(t[i]) }

  predicate Acceptable(t: Text) {
    !Blank(t) && Encodable(t) && Bytes(t) <= MAX_RESULT_BYTES && Units(t) <= MAX_RESULT_UNITS
  }

  // The next chunk's first character would not have fitted.
  predicate Full(c: Text, next: Text) { next != [] && Bytes(c) + Width(next[0]) > MAX_CHUNK_BYTES }

  ghost predicate Sized(cs: seq<Text>) { forall c :: c in cs ==> c != [] && Bytes(c) <= MAX_CHUNK_BYTES }

  ghost predicate AllFull(cs: seq<Text>) { forall i, j :: 0 <= i && i + 1 == j < |cs| ==> Full(cs[i], cs[j]) }

  // The chunks of a text: exact, never empty, never over the limit, and cut only where the next
  // character would not have fitted.
  ghost predicate IsChunking(t: Text, cs: seq<Text>) { Flatten(cs) == t && Sized(cs) && AllFull(cs) }

  lemma {:induction false} BytesSplit(a: Text, b: Text)
    ensures Bytes(a + b) == Bytes(a) + Bytes(b) && Units(a + b) == Units(a) + Units(b)
  {
    if a == [] {
      assert a + b == b;
    } else {
      assert (a + b)[1..] == a[1..] + b;
      BytesSplit(a[1..], b);
    }
  }

  lemma FlattenNext(cs: seq<Text>, c: Text)
    ensures Flatten(cs + [c]) == Flatten(cs) + c
  {
    assert (cs + [c])[..|cs|] == cs;
  }

  lemma ChunkingNext(t: Text, cs: seq<Text>, c: Text)
    requires IsChunking(t, cs) && c != [] && Bytes(c) <= MAX_CHUNK_BYTES && (cs != [] ==> Full(cs[|cs| - 1], c))
    ensures IsChunking(t + c, cs + [c])
  {
    FlattenNext(cs, c);
  }

  lemma BytesOne(c: CodePoint)
    ensures Bytes([c]) == Width(c)
  {
    assert [c][1..] == [];
  }

  // The chunk being filled may still be empty only before the first character.
  predicate Continues(result: seq<Text>, chunk: Text) { result != [] ==> Full(result[|result| - 1], chunk) }

  /** Cut a result text. A text that is not acceptable is refused whole, never truncated. */
  method Chunks(text: Text) returns (r: Option<seq<Text>>)
    ensures r.Some? <==> Acceptable(text)
    ensures r.Some? ==> IsChunking(text, r.value)
  {
    if !Acceptable(text) { return None; }
    var result: seq<Text> := [];
    var chunk: Text := [];
    var size := 0;
    ghost var cut: Text := [];
    for i := 0 to |text|
      invariant size == Bytes(chunk) <= MAX_CHUNK_BYTES
      invariant IsChunking(cut, result) && Continues(result, chunk) && cut + chunk == text[..i]
    {
      var width := Width(text[i]);
      BytesSplit(chunk, [text[i]]);
      BytesOne(text[i]);
      assert text[..i + 1] == text[..i] + [text[i]];
      if size + width > MAX_CHUNK_BYTES {
        ChunkingNext(cut, result, chunk);
        cut := cut + chunk;
        result, chunk, size := result + [chunk], [], 0;
      }
      assert cut + (chunk + [text[i]]) == text[..i + 1];
      chunk := chunk + [text[i]];
      size := size + width;
    }
    assert text[..|text|] == text;
    if chunk != [] {
      ChunkingNext(cut, result, chunk);
      result := result + [chunk];
    }
    return Some(result);
  }

  // ---- What the chunks amount to ----

  lemma {:induction false} BytesPerUnit(t: Text)
    ensures Bytes(t) <= 3 * Units(t)
  {
    if t != [] {
      BytesPerUnit(t[1..]);
    }
  }

  // Every chunk but the last carries at least 497 bytes.
  lemma {:induction false} ChunksAreFull(t: Text, cs: seq<Text>)
    requires IsChunking(t, cs) && cs != []
    ensures Bytes(t) >= 497 * (|cs| - 1) + Bytes(cs[|cs| - 1])
    decreases |cs|
  {
    var init := cs[..|cs| - 1];
    BytesSplit(Flatten(init), cs[|cs| - 1]);
    if |cs| > 1 {
      assert forall c :: c in init ==> c in cs;
      ChunksAreFull(Flatten(init), init);
      assert Full(cs[|cs| - 2], cs[|cs| - 1]);
    }
  }

  lemma NonEmptyHasBytes(t: Text)
    requires t != []
    ensures Bytes(t) >= 1
  {
  }

  /** A result of at most 1800 UTF-16 units never needs more than 11 chunks. */
  lemma AtMostElevenChunks(t: Text, cs: seq<Text>)
    requires Units(t) <= MAX_RESULT_UNITS && IsChunking(t, cs)
    ensures |cs| <= 11
  {
    if cs != [] {
      BytesPerUnit(t);
      ChunksAreFull(t, cs);
      NonEmptyHasBytes(cs[|cs| - 1]);
    }
  }

  /**
    What is accepted: a text with something to say, no lone surrogate, and at most 1800 UTF-16 units. The limit
    of 7200 bytes never decides. It is cut into at least one chunk and at most eleven.
  */
  lemma AcceptableIff(t: Text, cs: seq<Text>)
    requires IsChunking(t, cs)
    ensures Acceptable(t) <==> (exists i :: 0 <= i < |t| && !IsSpace(t[i])) && (forall i :: 0 <= i < |t| ==> !(0xD800 <= t[i] <= 0xDFFF)) && Units(t) <= 1800
    ensures Acceptable(t) ==> 1 <= |cs| <= 11
  {
    BytesPerUnit(t);
    if Acceptable(t) {
      AtMostElevenChunks(t, cs);
      assert t != [];
    }
  }

  function Repeat(c: CodePoint, n: nat): Text { seq(n, _ => c) }

  lemma {:induction false} RepeatSize(c: CodePoint, n: nat)
    requires 0x800 <= c <= 0xFFFF
    ensures Bytes(Repeat(c, n)) == 3 * n && Units(Repeat(c, n)) == n
  {
    if n > 0 {
      assert Repeat(c, n)[1..] == Repeat(c, n - 1);
      RepeatSize(c, n - 1);
    }
  }

  lemma {:induction false} RepeatChunking(c: CodePoint, k: nat, last: nat)
    requires 0x800 <= c <= 0xFFFF && 0 < last <= 166
    ensures var cs := seq(k, _ => Repeat(c, 166)) + [Repeat(c, last)];
      IsChunking(Flatten(cs), cs) && Units(Flatten(cs)) == 166 * k + last
  {
    var full := seq(k, _ => Repeat(c, 166));
    RepeatSize(c, 166);
    RepeatSize(c, last);
    FlattenNext(full, Repeat(c, last));
    FullUnits(c, k);
    BytesSplit(Flatten(full), Repeat(c, last));
  }

  lemma {:induction false} FullUnits(c: CodePoint, k: nat)
    requires 0x800 <= c <= 0xFFFF
    ensures Units(Flatten(seq(k, _ => Repeat(c, 166)))) == 166 * k
  {
    if k > 0 {
      FullUnits(c, k - 1);
      var full := seq(k, _ => Repeat(c, 166));
      assert full[..k - 1] == seq(k - 1, _ => Repeat(c, 166));
      RepeatSize(c, 166);
      BytesSplit(Flatten(full[..k - 1]), Repeat(c, 166));
    }
  }

  /** The bound is exact: some text of exactly 1800 units is cut into 11. */
  lemma ElevenIsReached() returns (t: Text, cs: seq<Text>)
    ensures Units(t) == MAX_RESULT_UNITS && IsChunking(t, cs) && |cs| == 11
  {
    cs := seq(10, _ => Repeat(0x20AC, 166)) + [Repeat(0x20AC, 140)];
    t := Flatten(cs);
    RepeatChunking(0x20AC, 10, 140);
  }

  // ---- There is only one chunking ----

  lemma {:induction false} FlattenFirst(cs: seq<Text>)
    requires cs != []
    ensures Flatten(cs) == cs[0] + Flatten(cs[1..])
    decreases |cs|
  {
    if |cs| == 1 {
      assert cs == [cs[0]] && cs[..0] == [];
    } else {
      var init := cs[..|cs| - 1];
      FlattenFirst(init);
      var tail, last := cs[1..], cs[|cs| - 1];
      assert init[0] == cs[0] && tail[|tail| - 1] == last && init[1..] == tail[..|tail| - 1];
      assert Flatten(tail) == Flatten(init[1..]) + last;
      assert cs[0] + Flatten(init[1..]) + last == cs[0] + (Flatten(init[1..]) + last);
    }
  }

  lemma {:induction false} PrefixBytes(a: Text, b: Text)
    requires a <= b
    ensures Bytes(a) <= Bytes(b)
  {
    BytesSplit(a, b[|a|..]);
    assert a + b[|a|..] == b;
  }

  lemma ChunkingTail(t: Text, cs: seq<Text>)
    requires IsChunking(t, cs) && cs != []
    ensures |cs[0]| <= |t| && cs[0] == t[..|cs[0]|] && IsChunking(t[|cs[0]|..], cs[1..])
  {
    FlattenFirst(cs);
    assert forall c :: c in cs[1..] ==> c in cs;
    assert AllFull(cs[1..]) by {
      forall i, j | 0 <= i && i + 1 == j < |cs[1..]| ensures Full(cs[1..][i], cs[1..][j]) {
        assert Full(cs[i + 1], cs[j + 1]);
      }
    }
  }

  // The first chunk of one chunking cannot be shorter than that of another.
  lemma FirstChunkIsLongest(t: Text, cs: seq<Text>, ds: seq<Text>)
    requires IsChunking(t, cs) && IsChunking(t, ds) && cs != [] && ds != []
    ensures |ds[0]| <= |cs[0]|
  {
    ChunkingTail(t, cs);
    ChunkingTail(t, ds);
    assert ds[0] in ds;
    var k := |cs[0]|;
    if |ds[0]| > k && |cs| > 1 {
      var x := t[k];
      ChunkingTail(t[k..], cs[1..]);
      assert Full(cs[0], cs[1]) && cs[1][0] == x;
      BytesSplit(cs[0], [x]);
      BytesOne(x);
      assert cs[0] + [x] == ds[0][..k + 1];
      PrefixBytes(cs[0] + [x], ds[0]);
    }
  }

  /** The contract of Chunks leaves no choice: a text has exactly one chunking. */
  lemma {:induction false} ChunkingIsUnique(t: Text, cs: seq<Text>, ds: seq<Text>)
    requires IsChunking(t, cs) && IsChunking(t, ds)
    ensures cs == ds
    decreases |cs|
  {
    if cs == [] || ds == [] {
      OnlyEmptyIsEmpty(t, cs);
      OnlyEmptyIsEmpty(t, ds);
    } else {
      FirstChunkIsLongest(t, cs, ds);
      FirstChunkIsLongest(t, ds, cs);
      ChunkingTail(t, cs);
      ChunkingTail(t, ds);
      ChunkingIsUnique(t[|cs[0]|..], cs[1..], ds[1..]);
      assert cs == [cs[0]] + cs[1..] && ds == [ds[0]] + ds[1..];
    }
  }

  lemma OnlyEmptyIsEmpty(t: Text, cs: seq<Text>)
    requires IsChunking(t, cs)
    ensures t == [] <==> cs == []
  {
    if cs != [] {
      FlattenFirst(cs);
      assert cs[0] in cs;
    }
  }

  // ---- The event buffer ----

  type Event = string

  // End: the None that tells the consumer to stop.
  datatype Entry = Entry(event: Event, size: nat) | End

  datatype Events = Events(
    queue: seq<Entry>,
    queuedBytes: int,
    closed: bool,             // the cleanup, which runs once, has queued its two entries
    accepted: seq<Event>,     // history
    delivered: seq<Event>)    // history

  function Emit(e: Events, event: Event, size: nat): (Events, bool) {
    if |e.queue| >= MAX_EVENT_COUNT || e.queuedBytes + size > MAX_EVENT_BYTES then (e, false)
    else (e.(queue := e.queue + [Entry(event, size)], queuedBytes := e.queuedBytes + size, accepted := e.accepted + [event]), true)
  }

  function Take(e: Events): Events
    requires e.queue != []
  {
    match e.queue[0]
    case End => e.(queue := e.queue[1..])
    case Entry(event, size) => e.(queue := e.queue[1..], queuedBytes := e.queuedBytes - size, delivered := e.delivered + [event])
  }

  function Cleanup(e: Events, terminal: Event): Events {
    e.(queue := e.queue + [Entry(terminal, 0), End], closed := true, accepted := e.accepted + [terminal])
  }

  function Sizes(q: seq<Entry>): nat { if q == [] then 0 else (if q[0].End? then 0 else q[0].size) + Sizes(q[1..]) }

  function Queued(q: seq<Entry>): seq<Event> {
    if q == [] then [] else (if q[0].End? then [] else [q[0].event]) + Queued(q[1..])
  }

  ghost predicate EventsOk(e: Events) {
    && e.queuedBytes == Sizes(e.queue) <= MAX_EVENT_BYTES
    && |e.queue| <= MAX_EVENT_COUNT + (if e.closed then 2 else 0)
    && e.delivered + Queued(e.queue) == e.accepted
  }

  class LiveTransport {
    var queue: seq<Entry>
    var queuedBytes: int
    var closed: bool
    var accepted: seq<Event>
    var delivered: seq<Event>

    function Snapshot(): Events
      reads this
    {
      Events(queue, queuedBytes, closed, accepted, delivered)
    }

    constructor ()
      ensures Snapshot() == Events([], 0, false, [], [])
    {
      queue, queuedBytes, closed, accepted, delivered := [], 0, false, [], [];
    }

    // Refused when the buffer is full; an accepted event is never dropped for a later one.
    method EmitEvent(event: Event, size: nat) returns (taken: bool)
      modifies this
      ensures (Snapshot(), taken) == Emit(old(Snapshot()), event, size)
    {
      if |queue| >= MAX_EVENT_COUNT || queuedBytes + size > MAX_EVENT_BYTES { return false; }
      queuedBytes := queuedBytes + size;
      queue := queue + [Entry(event, size)];
      accepted := accepted + [event];
      return true;
    }

    method NextEvent() returns (event: Option<Event>)
      requires queue != []
      modifies this
      ensures Snapshot() == Take(old(Snapshot()))
      ensures event == if old(queue[0]).End? then None else Some(old(queue[0]).event)
    {
      var item := queue[0];
      queue := queue[1..];
      if item.End? { return None; }
      queuedBytes := queuedBytes - item.size;
      delivered := delivered + [item.event];
      return Some(item.event);
    }

    method FinishCleanup(terminal: Event)
      requires !closed
      modifies this
      ensures Snapshot() == Cleanup(old(Snapshot()), terminal)
    {
      queue := queue + [Entry(terminal, 0)];
      queue := queue + [End];
      accepted, closed := accepted + [terminal], true;
    }
  }

  lemma {:induction false} QueueAppend(q: seq<Entry>, x: Entry)
    ensures Sizes(q + [x]) == Sizes(q) + (if x.End? then 0 else x.size)
    ensures Queued(q + [x]) == Queued(q) + (if x.End? then [] else [x.event])
  {
    if q == [] {
      assert q + [x] == [x];
    } else {
      assert (q + [x])[1..] == q[1..] + [x];
      QueueAppend(q[1..], x);
    }
  }

  datatype EventStep = EmitStep(event: Event, size: nat) | TakeStep | CleanupStep(terminal: Event)

  function Apply(e: Events, step: EventStep): Events {
    match step
    case EmitStep(event, size) => Emit(e, event, size).0
    case TakeStep => if e.queue != [] then Take(e) else e
    case CleanupStep(terminal) => if e.closed then e else Cleanup(e, terminal)
  }

  function Run(e: Events, steps: seq<EventStep>): Events
    decreases |steps|
  {
    if steps == [] then e else Run(Apply(e, steps[0]), steps[1..])
  }

  lemma ApplyOk(e: Events, step: EventStep)
    requires EventsOk(e)
    ensures EventsOk(Apply(e, step))
  {
    match step
    case EmitStep(event, size) => QueueAppend(e.queue, Entry(event, size));
    case TakeStep =>
    case CleanupStep(terminal) =>
      QueueAppend(e.queue, Entry(terminal, 0));
      QueueAppend(e.queue + [Entry(terminal, 0)], End);
      assert e.queue + [Entry(terminal, 0)] + [End] == e.queue + [Entry(terminal, 0), End];
  }

  /**
    The buffer is lossless and bounded over every run: the consumer has been given a prefix of the
    accepted events and the rest is queued in order; the byte count is that of the queue and at most
    1 MiB; and the two slots reserved above 32 always have room for the closing entries.
  */
  lemma {:induction false} EventsAreLossless(e: Events, steps: seq<EventStep>)
    requires EventsOk(e)
    ensures EventsOk(Run(e, steps)) && Run(e, steps).delivered <= Run(e, steps).accepted && |Run(e, steps).queue| <= MAX_EVENT_COUNT + 2
    decreases |steps|
  {
    if steps != [] {
      ApplyOk(e, steps[0]);
      EventsAreLossless(Apply(e, steps[0]), steps[1..]);
    }
  }

  /** An event is taken if and only if fewer than 32 are queued and 1 MiB is not exceeded; it then is the last, and otherwise nothing changes. */
  lemma EmitIff(e: Events, event: Event, size: nat)
    requires EventsOk(e)
    ensures var (e', taken) := Emit(e, event, size);
      && (taken <==> |e.queue| < 32 && Sizes(e.queue) + size <= 1024 * 1024)
      && (taken ==> EventsOk(e') && Queued(e'.queue) == Queued(e.queue) + [event] && (e'.closed, e'.delivered) == (e.closed, e.delivered))
      && (!taken ==> e' == e)
  {
    QueueAppend(e.queue, Entry(event, size));
  }

  function Takes(n: nat): seq<EventStep> { if n == 0 then [] else [TakeStep] + Takes(n - 1) }

  lemma {:induction false} TakenInTurn(e: Events, n: nat)
    requires EventsOk(e) && n <= |e.queue|
    ensures Run(e, Takes(n)).queue == e.queue[n..] && Run(e, Takes(n)).accepted == e.accepted && EventsOk(Run(e, Takes(n)))
    decreases n
  {
    if n > 0 {
      ApplyOk(e, TakeStep);
      TakenInTurn(Apply(e, TakeStep), n - 1);
      assert Takes(n)[1..] == Takes(n - 1);
      assert e.queue[1..][n - 1..] == e.queue[n..];
    }
  }

  /**
    Closing loses nothing and ends the consumer: it takes every accepted event, then the closing one, and
    then the entry that stops it, which is the last of the queue.
  */
  lemma ConsumerGetsAll(e: Events, terminal: Event)
    requires EventsOk(e) && !e.closed
    ensures var closed := Apply(e, CleanupStep(terminal));
      var last := Run(closed, Takes(|e.queue| + 1));
      && closed.closed && last.delivered == e.accepted + [terminal] && last.queue == [End]
      && Run(closed, Takes(|e.queue| + 2)).queue == []
  {
    var closed := Apply(e, CleanupStep(terminal));
    ApplyOk(e, CleanupStep(terminal));
    TakenInTurn(closed, |e.queue| + 1);
    TakenInTurn(closed, |e.queue| + 2);
    assert closed.queue == e.queue + [Entry(terminal, 0), End];
    assert Queued([End]) == [];
    hide Run, Takes, Sizes;
  }
}
