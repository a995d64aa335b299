/**
  Validation of a hosted room's log pages, and what follows for a reader that asks for page after
  page from the last cursor.
*/
module GroupsLog {
  import opened Wrappers

  const MAX_SAFE_INTEGER := 9007199254740991
  const MAX_PAGE := 500
  const MAX_TIMESTAMP := 253402300799.0

  datatype ActorKind = User | Member | Gateway | System | OtherActor
  datatype EventKind = MessageUser | MessageMember | OtherKind

  // `shapeOk` stands for the checks on field names, identifier patterns, labels, payload size and finite numbers.
  datatype Event = Event(
    shapeOk: bool, roomId: string, sequence: int, eventId: string, kind: EventKind, actor: ActorKind,
    authorityEpoch: Option<int>, createdAt: real)

  datatype Page = Page(shapeOk: bool, epoch: int, cursor: int, latest: int, hasMore: bool, events: seq<Event>)

  datatype Request = Request(shapeOk: bool, roomId: string, since: int, limit: int)

  predicate SafeInteger(n: int, minimum: int) { minimum <= n <= MAX_SAFE_INTEGER }

  predicate EventOk(e: Event, r: Request, p: Page) {
    && e.shapeOk && e.roomId == r.roomId && SafeInteger(e.sequence, 1)
    && !e.actor.OtherActor? && (e.kind.MessageUser? ==> e.actor.User?) && (e.kind.MessageMember? ==> e.actor.Member?)
    && (e.authorityEpoch.Some? ==> SafeInteger(e.authorityEpoch.value, 1) && e.authorityEpoch.value <= p.epoch)
    && 0.0 <= e.createdAt <= MAX_TIMESTAMP
  }

  // Event i of a page carries the i-th sequence number after the request's.
  predicate Consecutive(events: seq<Event>, since: int) {
    forall i :: 0 <= i < |events| ==> events[i].sequence == since + 1 + i
  }

  predicate DistinctIds(events: seq<Event>) {
    forall i, j :: 0 <= i < j < |events| ==> events[i].eventId != events[j].eventId
  }

  // What an accepted page is, said without the order of the checks.
  predicate PageOk(r: Request, p: Page) {
    && r.shapeOk && p.shapeOk && SafeInteger(r.since, 0) && 1 <= r.limit <= MAX_PAGE && SafeInteger(p.epoch, 1)
    && SafeInteger(p.cursor, 0) && SafeInteger(p.latest, 0)
    && |p.events| <= r.limit && Consecutive(p.events, r.since) && DistinctIds(p.events)
    && (forall e :: e in p.events ==> EventOk(e, r, p))
    && p.cursor == r.since + |p.events| <= p.latest
    && (p.hasMore <==> p.cursor < p.latest) && (p.hasMore ==> p.events != [])
  }

  /** One pass over the events accepts exactly the pages that are in order. */
  method ValidateLogPage(r: Request, p: Page) returns (accepted: bool)
    ensures accepted <==> PageOk(r, p)
  {
    if !p.shapeOk || !r.shapeOk || !SafeInteger(r.since, 0) || !SafeInteger(r.limit, 1) || r.limit > MAX_PAGE { return false; }
    if !SafeInteger(p.epoch, 1) || !SafeInteger(p.cursor, 0) || !SafeInteger(p.latest, 0) { return false; }
    if !(r.since <= p.cursor <= p.latest) || p.hasMore != (p.cursor < p.latest) { return false; }
    if |p.events| > r.limit { return false; }
    var sequence := r.since;
    var eventIds: set<string> := {};
    var i := 0;
    while i < |p.events|
      invariant 0 <= i <= |p.events| && sequence == r.since + i
      invariant Consecutive(p.events[..i], r.since) && DistinctIds(p.events[..i])
      invariant forall k :: 0 <= k < i ==> EventOk(p.events[k], r, p)
      invariant forall id :: id in eventIds <==> exists k :: 0 <= k < i && p.events[k].eventId == id
    {
      var event := p.events[i];
      assert event in p.events;
      if event.roomId != r.roomId || !SafeInteger(event.sequence, 1) || event.sequence != sequence + 1 { return false; }
      sequence := sequence + 1;
      if event.eventId in eventIds {
        var k :| 0 <= k < i && p.events[k].eventId == event.eventId;
        return false;
      }
      eventIds := eventIds + {event.eventId};
      if !EventOk(event, r, p) { return false; }
      assert forall k :: 0 <= k < i ==> p.events[..i][k] == p.events[k] == p.events[..i + 1][k];
      i := i + 1;
    }
    assert p.events[..i] == p.events;
    return p.cursor == sequence && (p.hasMore ==> p.events != []);
  }

  // ---- Reading on from the cursor ----

  // Every page accepted, and each but the first asked for from the cursor of the one before.
  predicate Chained(since: int, rs: seq<Request>, ps: seq<Page>)
    decreases |ps|
  {
    |rs| == |ps| &&
    (ps == [] || (rs[0].since == since && PageOk(rs[0], ps[0]) && Chained(ps[0].cursor, rs[1..], ps[1..])))
  }

  function AllEvents(ps: seq<Page>): seq<Event> {
    if ps == [] then [] else ps[0].events + AllEvents(ps[1..])
  }

  function LastCursor(since: int, ps: seq<Page>): int { if ps == [] then since else ps[|ps| - 1].cursor }

  /**
    The reader's log has no gap, no repeat and no disorder: its events are numbered from the first
    request's cursor up to the last page's. If the last page says there is no more, that is the whole
    log up to the latest sequence it reports.
  */
  lemma {:induction false} ReadingIsGapFree(since: int, rs: seq<Request>, ps: seq<Page>)
    requires Chained(since, rs, ps)
    ensures Consecutive(AllEvents(ps), since) && LastCursor(since, ps) == since + |AllEvents(ps)|
    ensures ps != [] && !ps[|ps| - 1].hasMore ==> |AllEvents(ps)| == ps[|ps| - 1].latest - since
    decreases |ps|
  {
    if ps != [] {
      ReadingIsGapFree(ps[0].cursor, rs[1..], ps[1..]);
      assert |ps| > 1 ==> ps[|ps| - 1] == ps[1..][|ps| - 2];
      LastPageOk(since, rs, ps);
    }
  }

  lemma {:induction false} LastPageOk(since: int, rs: seq<Request>, ps: seq<Page>)
    requires Chained(since, rs, ps) && ps != []
    ensures PageOk(rs[|ps| - 1], ps[|ps| - 1])
    decreases |ps|
  {
    if |ps| > 1 {
      LastPageOk(ps[0].cursor, rs[1..], ps[1..]);
    }
  }

  /**
    Reading on always makes progress: a page that says there is more is strictly nearer to its latest
    sequence, so a reader that is told so every time, by a log that stays below some bound, has asked
    at most as often as there were events to read.
  */
  lemma {:induction false} ReadingProgresses(since: int, rs: seq<Request>, ps: seq<Page>, bound: int)
    requires Chained(since, rs, ps) && forall i :: 0 <= i < |ps| ==> ps[i].hasMore && ps[i].latest <= bound
    ensures forall i :: 0 <= i < |ps| ==> ps[i].latest - ps[i].cursor < ps[i].latest - (if i == 0 then since else ps[i - 1].cursor)
    ensures ps != [] ==> |ps| < bound - since
    decreases |ps|
  {
    if ps != [] {
      var rest := ps[1..];
      ReadingProgresses(ps[0].cursor, rs[1..], rest, bound);
      assert ps[0].hasMore && ps[0].latest <= bound;
      forall i | 0 <= i < |ps| ensures ps[i].latest - ps[i].cursor < ps[i].latest - (if i == 0 then since else ps[i - 1].cursor) {
        if i > 0 {
          assert ps[i] == rest[i - 1] && (i > 1 ==> ps[i - 1] == rest[i - 2]);
        }
      }
    }
  }

  // ---- Reading an honest log ----

  // Event n of the log carries number n + 1, belongs to the room, and is of a kind its author may write.
  ghost predicate Honest(log: seq<Event>, room: string, epoch: int) {
    && 1 <= epoch <= 9007199254740991 && |log| <= 9007199254740991
    && (forall i :: 0 <= i < |log| ==>
          var e := log[i];
          && e.shapeOk && e.roomId == room && e.sequence == i + 1 && e.actor != OtherActor
          && (e.kind == MessageUser ==> e.actor == User) && (e.kind == MessageMember ==> e.actor == Member)
          && (e.authorityEpoch.Some? ==> 1 <= e.authorityEpoch.value <= epoch) && 0.0 <= e.createdAt <= 253402300799.0)
    && (forall i, j :: 0 <= i < j < |log| ==> log[i].eventId != log[j].eventId)
  }

  // What a host answers from its log.
  function Answer(log: seq<Event>, epoch: int, r: Request): Page
    requires 0 <= r.since <= |log| && r.limit >= 0
  {
    var end := if r.since + r.limit < |log| then r.since + r.limit else |log|;
    Page(true, epoch, end, |log|, end < |log|, log[r.since..end])
  }

  /** An honest answer to a proper request is accepted. */
  lemma HonestIsAccepted(log: seq<Event>, room: string, epoch: int, r: Request)
    requires Honest(log, room, epoch) && r.shapeOk && r.roomId == room && 0 <= r.since <= |log| && 1 <= r.limit <= 500
    ensures PageOk(r, Answer(log, epoch, r))
  {
    var p := Answer(log, epoch, r);
    assert forall i :: 0 <= i < |p.events| ==> p.events[i] == log[r.since + i];
  }

  // The requests of a reader that goes on while there is more, and the answers.
  function Reading(log: seq<Event>, room: string, epoch: int, since: int, limit: int): (seq<Request>, seq<Page>)
    requires 0 <= since <= |log| && limit >= 1
    decreases |log| - since
  {
    var r := Request(true, room, since, limit);
    var p := Answer(log, epoch, r);
    if !p.hasMore then ([r], [p])
    else
      var (rs, ps) := Reading(log, room, epoch, p.cursor, limit);
      ([r] + rs, [p] + ps)
  }

  /** So an honest log is read whole: every answer is accepted, and the events read are those of the log after the cursor, in order. */
  lemma {:induction false} HonestLogIsReadWhole(log: seq<Event>, room: string, epoch: int, since: int, limit: int)
    requires Honest(log, room, epoch) && 0 <= since <= |log| && 1 <= limit <= 500
    ensures var (rs, ps) := Reading(log, room, epoch, since, limit); Chained(since, rs, ps) && AllEvents(ps) == log[since..]
    decreases |log| - since
  {
    var r := Request(true, room, since, limit);
    var p := Answer(log, epoch, r);
    HonestIsAccepted(log, room, epoch, r);
    hide Honest, PageOk;
    if p.hasMore {
      HonestLogIsReadWhole(log, room, epoch, p.cursor, limit);
      var (rs, ps) := Reading(log, room, epoch, p.cursor, limit);
      assert ([r] + rs)[1..] == rs && ([p] + ps)[1..] == ps;
      assert log[since..] == p.events + log[p.cursor..];
    } else {
      assert [r][1..] == [] && [p][1..] == [] && p.events + [] == log[since..];
    }
  }

  /**
    And nothing else is let in: every event a reader of one room is given belongs to that room, was written by
    someone who may write its kind, and carries a number and a time that exist.
  */
  lemma {:induction false} ReadEventsAreGenuine(since: int, rs: seq<Request>, ps: seq<Page>, room: string)
    requires Chained(since, rs, ps) && forall i :: 0 <= i < |rs| ==> rs[i].roomId == room
    ensures forall e :: e in AllEvents(ps) ==>
              && e.roomId == room && 1 <= e.sequence <= 9007199254740991 && e.actor != OtherActor
              && (e.kind == MessageUser ==> e.actor == User) && (e.kind == MessageMember ==> e.actor == Member)
              && 0.0 <= e.createdAt <= 253402300799.0
    decreases |ps|
  {
    if ps != [] {
      ReadEventsAreGenuine(ps[0].cursor, rs[1..], ps[1..], room);
    }
  }
}
