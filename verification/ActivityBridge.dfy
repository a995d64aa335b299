/**
  The activity broker: a two-stage buffer between hook threads and one sender task, each stage
  dropping its oldest entry when full, and the rosters of running subagents with their parent turns.
*/
module ActivityBridge {
  import Sets
  import opened Sequences
  import opened Wrappers

  const MAX_QUEUE := 256
  const MAX_OWNERS := 256
  const MAX_CHILDREN := 256

  function LastN<T>(s: seq<T>, n: nat): (r: seq<T>)
    ensures |r| == if |s| <= n then |s| else n
  {
    if |s| <= n then s else s[|s| - n..]
  }

  lemma LastNFirst<T>(a: seq<T>, b: seq<T>, n: nat)
    ensures LastN(LastN(a, n) + b, n) == LastN(a + b, n)
  {
    if |a| > n {
      var k := |a| - n;
      var c := a[k..];
      if b == [] {
        assert a + b == a && c + b == c;
      } else {
        assert forall j :: |b| <= j < |c + b| ==> (c + b)[j] == (a + b)[k + j];
        assert (c + b)[|b|..] == (a + b)[k + |b|..];
      }
    }
  }

  lemma LastNSecond<T>(a: seq<T>, b: seq<T>, n: nat)
    ensures LastN(a + LastN(b, n), n) == LastN(a + b, n)
  {
    if |b| > n {
      assert (a + LastN(b, n))[|a|..] == b[|b| - n..] == (a + b)[|a| + |b| - n..];
    }
  }

  // ---- The buffer ----

  type Payload = string
  type QueueId = nat

  // `index` is history: the position of the payload in publish order.
  datatype Item = Item(index: nat, payload: Payload)

  datatype Buffer = Buffer(
    queue: Option<QueueId>,         // the attached queue
    items: seq<Item>,               // its contents
    pending: seq<Item>,             // published, not yet handed to the loop
    wakeup: Option<QueueId>,        // the queue a flush has been scheduled for
    scheduled: seq<QueueId>,        // flush callbacks waiting in the loop
    nextQueue: QueueId,
    published: seq<Payload>,        // history: payloads the buffer took, in order
    mark: nat,                      // history: how many had been published when pending was last emptied
    sent: seq<Item>)                // history: handed to the sender

  datatype LoopState = Open | Closed | Failing  // Failing: it refuses the callback

  function Push(q: seq<Item>, x: Item): seq<Item> { (if |q| >= MAX_QUEUE then q[1..] else q) + [x] }

  function Publish(b: Buffer, payload: Payload, loop: LoopState): (Buffer, bool) {
    if b.queue.None? || loop.Closed? then (b, false)
    else
      var item := Item(|b.published|, payload);
      var b1 := b.(pending := Push(b.pending, item), published := b.published + [payload]);
      if b1.wakeup == b1.queue then (b1, true)
      else if loop.Failing? then (b1.(pending := [], wakeup := None, mark := |b1.published|), false)
      else (b1.(wakeup := b1.queue, scheduled := b1.scheduled + [b1.queue.value]), true)
  }

  function PushAll(q: seq<Item>, xs: seq<Item>): seq<Item>
    decreases |xs|
  {
    if xs == [] then q else PushAll(Push(q, xs[0]), xs[1..])
  }

  // The loop runs its oldest scheduled flush; one for a replaced queue does nothing.
  function Flush(b: Buffer): Buffer
    requires b.scheduled != []
  {
    var b1 := b.(scheduled := b.scheduled[1..]);
    if Some(b.scheduled[0]) != b.queue then b1
    else b1.(items := PushAll(b.items, b.pending), pending := [], wakeup := None, mark := |b.published|)
  }

  function Drain(b: Buffer): Buffer
    requires b.items != []
  {
    b.(items := b.items[1..], sent := b.sent + [b.items[0]])
  }

  function Attach(b: Buffer, sameLoop: bool): Buffer {
    if sameLoop && b.queue.Some? then b
    else b.(queue := Some(b.nextQueue), items := [], pending := [], wakeup := None, nextQueue := b.nextQueue + 1, mark := |b.published|)
  }

  function Detach(b: Buffer): Buffer {
    b.(queue := None, items := [], pending := [], wakeup := None, mark := |b.published|)
  }

  // ---- The rosters ----

  type SessionId = string
  type Turn = string

  datatype Owner = Owner(profile: string, parent: SessionId)
  datatype ChildKey = ChildKey(owner: Owner, child: SessionId)

  datatype Detail = Detail(subagentId: string, role: string, goal: string, parentId: Option<string>)
  datatype Child = Child(id: SessionId, detail: Detail, startedAt: int)
  datatype Roster = Roster(owner: Owner, children: seq<Child>)

  // Both levels in insertion order, oldest first.
  datatype Rosters = Rosters(owners: seq<Roster>, turns: map<ChildKey, Turn>)

  function FindOwner(rs: seq<Roster>, o: Owner): (i: nat)
    ensures i <= |rs|
    ensures i < |rs| ==> rs[i].owner == o
    ensures forall j :: 0 <= j < i ==> rs[j].owner != o
  {
    if rs == [] || rs[0].owner == o then 0 else 1 + FindOwner(rs[1..], o)
  }

  function FindChild(cs: seq<Child>, c: SessionId): (i: nat)
    ensures i <= |cs|
    ensures i < |cs| ==> cs[i].id == c
    ensures forall j :: 0 <= j < i ==> cs[j].id != c
  {
    if cs == [] || cs[0].id == c then 0 else 1 + FindChild(cs[1..], c)
  }

  function RemoveAt<T>(s: seq<T>, i: nat): seq<T> {
    if i < |s| then s[..i] + s[i + 1..] else s
  }

  function ChildrenOf(rs: seq<Roster>, o: Owner): seq<Child> {
    var i := FindOwner(rs, o);
    if i < |rs| then rs[i].children else []
  }

  // The owner's entry, rewritten and made the most recent.
  function PutRoster(rs: seq<Roster>, o: Owner, children: seq<Child>): seq<Roster> {
    RemoveAt(rs, FindOwner(rs, o)) + [Roster(o, children)]
  }

  function PutChild(cs: seq<Child>, c: SessionId, detail: Detail, now: int): seq<Child> {
    var i := FindChild(cs, c);
    RemoveAt(cs, i) + [Child(c, detail, if i < |cs| then cs[i].startedAt else now)]
  }

  function ForgetChildren(turns: map<ChildKey, Turn>, o: Owner, gone: seq<Child>): map<ChildKey, Turn>
    decreases |gone|
  {
    if gone == [] then turns else ForgetChildren(turns - {ChildKey(o, gone[0].id)}, o, gone[1..])
  }

  function ForgetOwners(turns: map<ChildKey, Turn>, gone: seq<Roster>): map<ChildKey, Turn>
    decreases |gone|
  {
    if gone == [] then turns else ForgetOwners(ForgetChildren(turns, gone[0].owner, gone[0].children), gone[1..])
  }

  function CapOwners(r: Rosters): Rosters {
    var k := Excess(r.owners, MAX_OWNERS);
    Rosters(r.owners[k..], ForgetOwners(r.turns, r.owners[..k]))
  }

  // The child joins its owner's roster, which is trimmed; the owners are trimmed after that.
  function Join(r: Rosters, o: Owner, c: SessionId, detail: Detail, turn: Option<Turn>, now: int): Rosters {
    var key := ChildKey(o, c);
    var turns := if key !in r.turns && turn.Some? then r.turns[key := turn.value] else r.turns;
    var children := PutChild(ChildrenOf(r.owners, o), c, detail, now);
    var k := Excess(children, MAX_CHILDREN);
    Rosters(PutRoster(r.owners, o, children[k..]), ForgetChildren(turns, o, children[..k]))
  }

  function Start(r: Rosters, o: Owner, c: SessionId, detail: Detail, turn: Option<Turn>, now: int): Rosters {
    CapOwners(Join(r, o, c, detail, turn, now))
  }

  // False: there was no such child, and nothing is published.
  function Stop(r: Rosters, o: Owner, c: SessionId): (Rosters, bool) {
    if FindOwner(r.owners, o) == |r.owners| then (r, false)
    else
      var children := ChildrenOf(r.owners, o);
      var i := FindChild(children, c);
      if i == |children| then (r.(owners := PutRoster(r.owners, o, children)), false)
      else (CapOwners(Rosters(PutRoster(r.owners, o, RemoveAt(children, i)), r.turns - {ChildKey(o, c)})), true)
  }

  // ---- The broker ----

  class LinkActivityBroker {
    var queue: Option<QueueId>
    var items: seq<Item>
    var pendingPublications: seq<Item>
    var publicationWakeup: Option<QueueId>
    var scheduled: seq<QueueId>
    var nextQueue: QueueId
    var published: seq<Payload>
    var mark: nat
    var sent: seq<Item>
    var owners: seq<Roster>
    var parentTurns: map<ChildKey, Turn>

    function BufferNow(): Buffer
      reads this
    {
      Buffer(queue, items, pendingPublications, publicationWakeup, scheduled, nextQueue, published, mark, sent)
    }

    function RostersNow(): Rosters
      reads this
    {
      Rosters(owners, parentTurns)
    }

    constructor ()
      ensures BufferNow() == Buffer(None, [], [], None, [], 0, [], 0, []) && RostersNow() == Rosters([], map[])
    {
      queue, items, pendingPublications, publicationWakeup, scheduled, nextQueue := None, [], [], None, [], 0;
      published, mark, sent, owners, parentTurns := [], 0, [], [], map[];
    }

    method PublishPayload(payload: Payload, loop: LoopState) returns (delivered: bool)
      modifies this
      ensures (BufferNow(), delivered) == Publish(old(BufferNow()), payload, loop) && RostersNow() == old(RostersNow())
    {
      if queue.None? || loop.Closed? { return false; }
      if |pendingPublications| >= MAX_QUEUE {
        pendingPublications := pendingPublications[1..];
      }
      pendingPublications := pendingPublications + [Item(|published|, payload)];
      published := published + [payload];
      if publicationWakeup == queue { return true; }
      publicationWakeup := queue;
      if loop.Failing? {
        pendingPublications := [];
        publicationWakeup := None;
        mark := |published|;
        return false;
      }
      scheduled := scheduled + [queue.value];
      return true;
    }

    method Enqueue(x: Item)
      modifies this`items
      ensures items == Push(old(items), x)
    {
      if |items| >= MAX_QUEUE {
        items := items[1..];
      }
      items := items + [x];
    }

    method FlushPublications()
      requires scheduled != []
      modifies this
      ensures BufferNow() == Flush(old(BufferNow())) && RostersNow() == old(RostersNow())
    {
      var id := scheduled[0];
      scheduled := scheduled[1..];
      if Some(id) != queue { return; }
      var pending := pendingPublications;
      pendingPublications, publicationWakeup, mark := [], None, |published|;
      var i := 0;
      while i < |pending|
        invariant 0 <= i <= |pending|
        invariant PushAll(items, pending[i..]) == PushAll(old(items), pending)
        invariant BufferNow() == Flush(old(BufferNow())).(items := items) && RostersNow() == old(RostersNow())
      {
        Enqueue(pending[i]);
        assert pending[i..][1..] == pending[i + 1..];
        i := i + 1;
      }
    }

    method DrainOne()
      requires items != []
      modifies this
      ensures BufferNow() == Drain(old(BufferNow())) && RostersNow() == old(RostersNow())
    {
      var payload := items[0];
      items := items[1..];
      sent := sent + [payload];
    }

    method AttachSender(sameLoop: bool)
      modifies this
      ensures BufferNow() == Attach(old(BufferNow()), sameLoop) && RostersNow() == old(RostersNow())
    {
      if sameLoop && queue.Some? { return; }
      queue, nextQueue := Some(nextQueue), nextQueue + 1;
      items, pendingPublications, publicationWakeup, mark := [], [], None, |published|;
    }

    method DetachSender()
      modifies this
      ensures BufferNow() == Detach(old(BufferNow())) && RostersNow() == old(RostersNow())
    {
      queue, items, pendingPublications, publicationWakeup, mark := None, [], [], None, |published|;
    }

    // Drop the oldest children of one roster until it fits, with their turns.
    method TrimChildren(owner: Owner, all: seq<Child>) returns (kept: seq<Child>)
      modifies this`parentTurns
      ensures kept == all[Excess(all, MAX_CHILDREN)..]
      ensures parentTurns == ForgetChildren(old(parentTurns), owner, all[..Excess(all, MAX_CHILDREN)])
    {
      kept := all;
      ghost var k := 0;
      while |kept| > MAX_CHILDREN
        invariant k <= Excess(all, MAX_CHILDREN) && kept == all[k..]
        invariant ForgetChildren(parentTurns, owner, all[k..Excess(all, MAX_CHILDREN)])
               == ForgetChildren(old(parentTurns), owner, all[..Excess(all, MAX_CHILDREN)])
      {
        assert all[k..Excess(all, MAX_CHILDREN)][1..] == all[k + 1..Excess(all, MAX_CHILDREN)];
        parentTurns := parentTurns - {ChildKey(owner, kept[0].id)};
        kept := kept[1..];
        k := k + 1;
      }
    }

    method ForgetRoster(gone: Roster)
      modifies this`parentTurns
      ensures parentTurns == ForgetChildren(old(parentTurns), gone.owner, gone.children)
    {
      var i := 0;
      while i < |gone.children|
        invariant 0 <= i <= |gone.children|
        invariant ForgetChildren(parentTurns, gone.owner, gone.children[i..])
               == ForgetChildren(old(parentTurns), gone.owner, gone.children)
      {
        assert gone.children[i..][1..] == gone.children[i + 1..];
        parentTurns := parentTurns - {ChildKey(gone.owner, gone.children[i].id)};
        i := i + 1;
      }
    }

    method TrimOwners()
      modifies this`owners, this`parentTurns
      ensures RostersNow() == CapOwners(old(RostersNow()))
    {
      ghost var all, k := owners, 0;
      ghost var over := Excess(all, MAX_OWNERS);
      while |owners| > MAX_OWNERS
        invariant k <= over && owners == all[k..]
        invariant ForgetOwners(parentTurns, all[k..over]) == ForgetOwners(old(parentTurns), all[..over])
      {
        assert all[k..over][1..] == all[k + 1..over] && all[k..over][0] == owners[0];
        ForgetRoster(owners[0]);
        owners := owners[1..];
        k := k + 1;
      }
    }

    method SubagentStarted(owner: Owner, child: SessionId, detail: Detail, turn: Option<Turn>, now: int)
      modifies this
      ensures RostersNow() == Start(old(RostersNow()), owner, child, detail, turn, now) && BufferNow() == old(BufferNow())
    {
      var key := ChildKey(owner, child);
      if key !in parentTurns && turn.Some? {
        parentTurns := parentTurns[key := turn.value];
      }
      var children := PutChild(ChildrenOf(owners, owner), child, detail, now);
      children := TrimChildren(owner, children);
      owners := PutRoster(owners, owner, children);
      TrimOwners();
    }

    method SubagentStopped(owner: Owner, child: SessionId) returns (known: bool)
      modifies this
      ensures (RostersNow(), known) == Stop(old(RostersNow()), owner, child) && BufferNow() == old(BufferNow())
    {
      if FindOwner(owners, owner) == |owners| { return false; }
      var children := ChildrenOf(owners, owner);
      owners := PutRoster(owners, owner, children);
      var i := FindChild(children, child);
      if i == |children| { return false; }
      owners := owners[|owners| - 1 := Roster(owner, RemoveAt(children, i))];
      assert owners == PutRoster(old(owners), owner, RemoveAt(children, i));
      parentTurns := parentTurns - {ChildKey(owner, child)};
      TrimOwners();
      return true;
    }
  }

  // ---- Runs of the buffer ----

  datatype Step = PublishStep(payload: Payload, loop: LoopState) | FlushStep | DrainStep | AttachStep(sameLoop: bool) | DetachStep

  function Apply(b: Buffer, step: Step): Buffer {
    match step
    case PublishStep(payload, loop) => Publish(b, payload, loop).0
    case FlushStep => if b.scheduled != [] then Flush(b) else b
    case DrainStep => if b.items != [] then Drain(b) else b
    case AttachStep(sameLoop) => Attach(b, sameLoop)
    case DetachStep => Detach(b)
  }

  function Run(b: Buffer, steps: seq<Step>): Buffer
    decreases |steps|
  {
    if steps == [] then b else Run(Apply(b, steps[0]), steps[1..])
  }

  // What was published from position `from` on.
  function Since(published: seq<Payload>, from: nat): seq<Item>
    requires from <= |published|
  {
    seq(|published| - from, i requires 0 <= i < |published| - from => Item(from + i, published[from + i]))
  }

  ghost predicate Increasing(s: seq<Item>) { forall i, j :: 0 <= i < j < |s| ==> s[i].index < s[j].index }

  ghost predicate Genuine(s: seq<Item>, published: seq<Payload>) {
    forall x :: x in s ==> x.index < |published| && x.payload == published[x.index]
  }

  // Pending is the most recent of what was published since it was last emptied.
  ghost predicate Recent(b: Buffer) {
    b.mark <= |b.published| && b.pending == LastN(Since(b.published, b.mark), MAX_QUEUE) && |b.items| <= MAX_QUEUE
  }

  // Everything on its way to the sender, oldest first.
  function InFlight(b: Buffer): seq<Item> { b.sent + b.items + b.pending }

  ghost predicate Ordered(b: Buffer) {
    && Increasing(b.sent + b.items) && Genuine(b.sent + b.items, b.published)
    && (forall x :: x in b.sent + b.items ==> x.index < b.mark)
  }

  // A flush is on its way whenever something is pending.
  ghost predicate Awake(b: Buffer) {
    && (b.wakeup.Some? ==> b.wakeup == b.queue && b.wakeup.value in b.scheduled)
    && (b.pending != [] ==> b.wakeup.Some?)
  }

  ghost predicate BufferInv(b: Buffer) { Recent(b) && Ordered(b) && Awake(b) }

  lemma PushIsLast(q: seq<Item>, x: Item)
    requires |q| <= MAX_QUEUE
    ensures Push(q, x) == LastN(q + [x], MAX_QUEUE)
  {
  }

  lemma {:induction false} PushAllIsLast(q: seq<Item>, xs: seq<Item>)
    requires |q| <= MAX_QUEUE
    ensures PushAll(q, xs) == LastN(q + xs, MAX_QUEUE)
    decreases |xs|
  {
    if xs == [] {
      assert q + [] == q;
    } else {
      PushIsLast(q, xs[0]);
      PushAllIsLast(Push(q, xs[0]), xs[1..]);
      LastNFirst(q + [xs[0]], xs[1..], MAX_QUEUE);
      assert q + [xs[0]] + xs[1..] == q + xs;
    }
  }

  /**
    A flush of the attached queue leaves in it exactly the most recent 256 of what it held followed by
    everything published since the last flush, both drop-oldest stages taken together.
  */
  lemma FlushKeepsMostRecent(b: Buffer)
    requires BufferInv(b) && b.scheduled != [] && Some(b.scheduled[0]) == b.queue
    ensures Flush(b).items == LastN(b.items + Since(b.published, b.mark), MAX_QUEUE)
  {
    PushAllIsLast(b.items, b.pending);
    LastNSecond(b.items, Since(b.published, b.mark), MAX_QUEUE);
  }

  lemma PublishRecent(b: Buffer, payload: Payload)
    requires Recent(b)
    ensures var published := b.published + [payload];
      Push(b.pending, Item(|b.published|, payload)) == LastN(Since(published, b.mark), MAX_QUEUE)
  {
    var all := Since(b.published, b.mark);
    assert Since(b.published + [payload], b.mark) == all + [Item(|b.published|, payload)];
    PushIsLast(b.pending, Item(|b.published|, payload));
    LastNFirst(all, [Item(|b.published|, payload)], MAX_QUEUE);
  }

  lemma SincePending(b: Buffer)
    requires Recent(b)
    ensures Increasing(b.pending) && Genuine(b.pending, b.published) && forall x :: x in b.pending ==> b.mark <= x.index
  {
  }

  lemma PublishInv(b: Buffer, payload: Payload, loop: LoopState)
    requires BufferInv(b)
    ensures BufferInv(Publish(b, payload, loop).0)
  {
    PublishRecent(b, payload);
  }

  // A suffix of an ordered sequence is ordered.
  lemma OrderedSuffix(sent: seq<Item>, all: seq<Item>, n: nat)
    requires Increasing(sent + all)
    ensures Increasing(sent + LastN(all, n))
  {
    var k := |all| - |LastN(all, n)|;
    forall i, j | 0 <= i < j < |sent + LastN(all, n)|
      ensures (sent + LastN(all, n))[i].index < (sent + LastN(all, n))[j].index
    {
      var i', j' := if i < |sent| then i else i + k, if j < |sent| then j else j + k;
      assert (sent + all)[i'].index < (sent + all)[j'].index;
    }
  }

  lemma JoinIncreasing(a: seq<Item>, b: seq<Item>, m: nat)
    requires Increasing(a) && Increasing(b) && (forall x :: x in a ==> x.index < m) && forall x :: x in b ==> m <= x.index
    ensures Increasing(a + b)
  {
    forall i, j | 0 <= i < j < |a + b| ensures (a + b)[i].index < (a + b)[j].index {
      if i < |a| <= j {
        assert a[i] in a && b[j - |a|] in b;
      }
    }
  }

  lemma FlushIncreasing(b: Buffer)
    requires Recent(b) && Ordered(b)
    ensures Increasing(b.sent + LastN(b.items + b.pending, MAX_QUEUE))
  {
    SincePending(b);
    JoinIncreasing(b.sent + b.items, b.pending, b.mark);
    assert b.sent + (b.items + b.pending) == (b.sent + b.items) + b.pending;
    OrderedSuffix(b.sent, b.items + b.pending, MAX_QUEUE);
  }

  lemma FlushGenuine(b: Buffer, x: Item)
    requires Recent(b) && Ordered(b) && x in b.sent + LastN(b.items + b.pending, MAX_QUEUE)
    ensures x.index < |b.published| && x.payload == b.published[x.index]
  {
    SincePending(b);
    assert x in b.sent + b.items || x in b.pending;
  }

  lemma FlushOrdered(b: Buffer)
    requires Recent(b) && Ordered(b) && b.scheduled != [] && Some(b.scheduled[0]) == b.queue
    ensures Ordered(Flush(b)) && Recent(Flush(b))
  {
    PushAllIsLast(b.items, b.pending);
    FlushIncreasing(b);
    forall x | x in Flush(b).sent + Flush(b).items
      ensures x.index < |b.published| && x.payload == b.published[x.index]
    {
      FlushGenuine(b, x);
    }
    assert Since(b.published, |b.published|) == [];
  }

  lemma DrainOrdered(b: Buffer)
    requires Ordered(b) && b.items != []
    ensures Ordered(Drain(b))
  {
    assert Drain(b).sent + Drain(b).items == b.sent + b.items;
  }

  lemma ClearedOrdered(b: Buffer)
    requires Ordered(b) && b.mark <= |b.published|
    ensures Ordered(b.(items := [], pending := [], mark := |b.published|))
  {
    var s := b.sent + [];
    assert forall i :: 0 <= i < |s| ==> s[i] == (b.sent + b.items)[i] && s[i] in b.sent + b.items;
  }

  lemma ApplyBuffer(b: Buffer, step: Step)
    requires BufferInv(b)
    ensures BufferInv(Apply(b, step))
  {
    match step
    case PublishStep(payload, loop) => PublishInv(b, payload, loop);
    case FlushStep => if b.scheduled != [] && Some(b.scheduled[0]) == b.queue { FlushOrdered(b); }
    case DrainStep => if b.items != [] { DrainOrdered(b); }
    case AttachStep(sameLoop) => ClearedOrdered(b); assert Since(b.published, |b.published|) == [];
    case DetachStep => ClearedOrdered(b); assert Since(b.published, |b.published|) == [];
  }

  /**
    Over every run of publishes, flushes, sends, attaches and detaches: what the sender has been given
    is a subsequence of what was published, in order and without repeats, and so is all that is still
    on its way; both stages are bounded; and nothing pends without a flush scheduled for it.
  */
  lemma {:induction false} SenderSeesPublishOrder(b: Buffer, steps: seq<Step>)
    requires BufferInv(b)
    ensures var b' := Run(b, steps);
      BufferInv(b') && Increasing(InFlight(b')) && Genuine(InFlight(b'), b'.published)
      && |b'.items| <= MAX_QUEUE && |b'.pending| <= MAX_QUEUE
    decreases |steps|
  {
    if steps == [] {
      SincePending(b);
      assert InFlight(b) == (b.sent + b.items) + b.pending;
    } else {
      ApplyBuffer(b, steps[0]);
      SenderSeesPublishOrder(Apply(b, steps[0]), steps[1..]);
    }
  }

  // ---- What is taken, and what arrives ----

  /**
    A payload is taken if and only if a sender is attached, its loop is not closed, and a flush is on its way
    or can be scheduled. It is then the last of what pends, after at most 255 others; and a payload that is
    not taken leaves nothing behind, nor, when the loop refuses the callback, anything that pended.
  */
  lemma PublishIff(b: Buffer, payload: Payload, loop: LoopState)
    requires BufferInv(b)
    ensures var (b', taken) := Publish(b, payload, loop);
      && (taken <==> b.queue.Some? && loop != Closed && (b.wakeup == b.queue || loop == Open))
      && (b'.queue, b'.items, b'.sent, b'.nextQueue) == (b.queue, b.items, b.sent, b.nextQueue)
      && (taken ==>
            && b'.published == b.published + [payload] && b'.wakeup == b.queue
            && b'.pending == LastN(b.pending + [Item(|b.published|, payload)], 256)
            && b'.scheduled == if b.wakeup == b.queue then b.scheduled else b.scheduled + [b.queue.value])
      && (!taken && (b.queue.None? || loop == Closed) ==> b' == b)
      && (!taken && b.queue.Some? && loop == Failing ==> b'.pending == [] && b'.wakeup == None && b'.scheduled == b.scheduled)
  {
    PushIsLast(b.pending, Item(|b.published|, payload));
  }

  function Times(step: Step, n: nat): seq<Step> { if n == 0 then [] else [step] + Times(step, n - 1) }

  lemma {:induction false} RunJoin(b: Buffer, first: seq<Step>, rest: seq<Step>)
    ensures Run(b, first + rest) == Run(Run(b, first), rest)
    decreases |first|
  {
    hide Apply;
    if first == [] {
      assert first + rest == rest;
    } else {
      assert (first + rest)[1..] == first[1..] + rest;
      RunJoin(Apply(b, first[0]), first[1..], rest);
    }
  }

  lemma {:induction false} AllDrained(b: Buffer, n: nat)
    requires |b.items| <= n
    ensures Run(b, Times(DrainStep, n)) == b.(items := [], sent := b.sent + b.items)
    decreases n
  {
    if n == 0 {
      assert b.sent + b.items == b.sent;
    } else {
      var b1 := Apply(b, DrainStep);
      assert Times(DrainStep, n)[1..] == Times(DrainStep, n - 1);
      AllDrained(b1, n - 1);
      if b.items != [] {
        assert b1.sent + b1.items == b.sent + b.items;
      } else {
        assert b.sent + b.items == b.sent;
      }
    }
  }

  lemma {:induction false} AllFlushed(b: Buffer)
    requires BufferInv(b)
    ensures var b' := Run(b, Times(FlushStep, |b.scheduled|));
      && b'.pending == [] && b'.items == LastN(b.items + b.pending, 256) && b'.sent == b.sent
    decreases |b.scheduled|
  {
    if b.scheduled == [] {
      assert b.items + b.pending == b.items;
    } else {
      var b1 := Apply(b, FlushStep);
      assert Times(FlushStep, |b.scheduled|)[1..] == Times(FlushStep, |b1.scheduled|);
      ApplyBuffer(b, FlushStep);
      AllFlushed(b1);
      PushAllIsLast(b.items, b.pending);
      assert b1.pending == [] ==> b1.items + b1.pending == b1.items;
    }
  }

  /**
    Nothing else is lost: once the scheduled flushes have run and the sender has taken what they left, it has
    received the most recent 256 of what was on its way, in order, and nothing is on its way any more.
  */
  lemma EverythingArrives(b: Buffer, n: nat)
    requires BufferInv(b) && n >= 256
    ensures var b' := Run(b, Times(FlushStep, |b.scheduled|) + Times(DrainStep, n));
      b'.pending == [] && b'.items == [] && b'.sent == b.sent + LastN(b.items + b.pending, 256)
  {
    AllFlushed(b);
    RunJoin(b, Times(FlushStep, |b.scheduled|), Times(DrainStep, n));
    AllDrained(Run(b, Times(FlushStep, |b.scheduled|)), n);
    hide Run, Times;
  }

  /** Attaching again to the same loop loses nothing: what was on its way still arrives. */
  lemma ReattachLosesNothing(b: Buffer, n: nat)
    requires BufferInv(b) && b.queue.Some? && n >= 256
    ensures var again := Apply(b, AttachStep(true));
      Run(again, Times(FlushStep, |again.scheduled|) + Times(DrainStep, n)).sent == b.sent + LastN(b.items + b.pending, 256)
  {
    EverythingArrives(b, n);
    hide Run, Times;
  }

  // Nothing on its way, and nothing sent since, is older than position n.
  ghost predicate NoOlder(b: Buffer, sent: nat, n: nat) {
    && sent <= |b.sent| && n <= b.mark <= |b.published|
    && (forall i :: sent <= i < |b.sent| ==> n <= b.sent[i].index)
    && (forall i :: 0 <= i < |b.items| ==> n <= b.items[i].index)
  }

  lemma StaysNoOlder(b: Buffer, step: Step, sent: nat, n: nat)
    requires BufferInv(b) && NoOlder(b, sent, n)
    ensures NoOlder(Apply(b, step), sent, n)
  {
    if step.FlushStep? && b.scheduled != [] && Some(b.scheduled[0]) == b.queue {
      PushAllIsLast(b.items, b.pending);
      SincePending(b);
      var all := b.items + b.pending;
      forall i | 0 <= i < |LastN(all, MAX_QUEUE)| ensures n <= LastN(all, MAX_QUEUE)[i].index {
        var j := i + |all| - |LastN(all, MAX_QUEUE)|;
        assert LastN(all, MAX_QUEUE)[i] == all[j];
        assert j >= |b.items| ==> all[j] in b.pending;
      }
    }
  }

  /**
    A sender never gets what was published for another one: after a detach, or an attach to another loop,
    whatever is sent was published since.
  */
  lemma {:induction false} NewSenderSeesNewOnly(b: Buffer, change: Step, steps: seq<Step>)
    requires BufferInv(b) && (change == DetachStep || change == AttachStep(false))
    ensures var b' := Run(Apply(b, change), steps);
      |b.sent| <= |b'.sent| && forall i :: |b.sent| <= i < |b'.sent| ==> |b.published| <= b'.sent[i].index
  {
    var b1 := Apply(b, change);
    ApplyBuffer(b, change);
    assert NoOlder(b1, |b.sent|, |b.published|);
    NoOlderForever(b1, steps, |b.sent|, |b.published|);
  }

  lemma {:induction false} NoOlderForever(b: Buffer, steps: seq<Step>, sent: nat, n: nat)
    requires BufferInv(b) && NoOlder(b, sent, n)
    ensures NoOlder(Run(b, steps), sent, n)
    decreases |steps|
  {
    hide Apply, BufferInv, NoOlder;
    if steps != [] {
      StaysNoOlder(b, steps[0], sent, n);
      ApplyBuffer(b, steps[0]);
      NoOlderForever(Apply(b, steps[0]), steps[1..], sent, n);
    }
  }

  // ---- Runs of hooks ----

  datatype Hook =
    | Started(owner: Owner, child: SessionId, detail: Detail, turn: Option<Turn>, now: int)
    | Stopped(owner: Owner, child: SessionId)

  function AfterHook(r: Rosters, h: Hook): Rosters {
    match h
    case Started(o, c, detail, turn, now) => Start(r, o, c, detail, turn, now)
    case Stopped(o, c) => Stop(r, o, c).0
  }

  function AfterHooks(r: Rosters, hs: seq<Hook>): Rosters
    decreases |hs|
  {
    if hs == [] then r else AfterHook(AfterHooks(r, hs[..|hs| - 1]), hs[|hs| - 1])
  }

  ghost predicate DistinctChildren(cs: seq<Child>) { forall i, j :: 0 <= i < j < |cs| ==> cs[i].id != cs[j].id }

  ghost predicate DistinctOwners(rs: seq<Roster>) { forall i, j :: 0 <= i < j < |rs| ==> rs[i].owner != rs[j].owner }

  ghost predicate Bounded(rs: seq<Roster>) {
    && DistinctOwners(rs)
    && forall k :: 0 <= k < |rs| ==> |rs[k].children| <= MAX_CHILDREN && DistinctChildren(rs[k].children)
  }

  ghost predicate HasChild(cs: seq<Child>, c: SessionId) { exists x :: x in cs && x.id == c }

  // The child is in its owner's roster.
  ghost predicate Listed(rs: seq<Roster>, key: ChildKey) {
    exists k :: 0 <= k < |rs| && rs[k].owner == key.owner && HasChild(rs[k].children, key.child)
  }

  ghost predicate Linked(r: Rosters) { forall key :: key in r.turns ==> Listed(r.owners, key) }

  lemma {:induction false} ForgetChildrenMeans(turns: map<ChildKey, Turn>, o: Owner, gone: seq<Child>)
    ensures forall key :: key in ForgetChildren(turns, o, gone) <==> key in turns && !(key.owner == o && HasChild(gone, key.child))
    decreases |gone|
  {
    if gone != [] {
      ForgetChildrenMeans(turns - {ChildKey(o, gone[0].id)}, o, gone[1..]);
      forall key: ChildKey ensures HasChild(gone, key.child) <==> key.child == gone[0].id || HasChild(gone[1..], key.child) {
        HasChildSplit(gone, key.child);
      }
    }
  }

  lemma HasChildSplit(cs: seq<Child>, c: SessionId)
    requires cs != []
    ensures HasChild(cs, c) <==> c == cs[0].id || HasChild(cs[1..], c)
  {
    assert cs == [cs[0]] + cs[1..];
    assert cs[0] in cs;
  }

  lemma {:induction false} ForgetOwnersMeans(turns: map<ChildKey, Turn>, gone: seq<Roster>)
    ensures forall key :: key in ForgetOwners(turns, gone) <==> key in turns && !Listed(gone, key)
    decreases |gone|
  {
    if gone != [] {
      var turns1 := ForgetChildren(turns, gone[0].owner, gone[0].children);
      ForgetChildrenMeans(turns, gone[0].owner, gone[0].children);
      ForgetOwnersMeans(turns1, gone[1..]);
      forall key: ChildKey
        ensures Listed(gone, key) <==> (gone[0].owner == key.owner && HasChild(gone[0].children, key.child)) || Listed(gone[1..], key)
      {
        ListedSplit([gone[0]], gone[1..], key);
        assert [gone[0]] + gone[1..] == gone;
        assert [gone[0]][0] == gone[0];
      }
    }
  }

  lemma ListedSplit(a: seq<Roster>, b: seq<Roster>, key: ChildKey)
    ensures Listed(a + b, key) <==> Listed(a, key) || Listed(b, key)
  {
    if Listed(a, key) {
      var k :| 0 <= k < |a| && a[k].owner == key.owner && HasChild(a[k].children, key.child);
      assert (a + b)[k] == a[k];
    }
    if Listed(b, key) {
      var k :| 0 <= k < |b| && b[k].owner == key.owner && HasChild(b[k].children, key.child);
      assert (a + b)[|a| + k] == b[k];
    }
  }

  lemma CapLinked(r: Rosters)
    requires Linked(r) && Bounded(r.owners)
    ensures Linked(CapOwners(r)) && Bounded(CapOwners(r).owners) && |CapOwners(r).owners| <= MAX_OWNERS
  {
    var k := Excess(r.owners, MAX_OWNERS);
    ForgetOwnersMeans(r.turns, r.owners[..k]);
    assert r.owners[..k] + r.owners[k..] == r.owners;
    forall key | key in CapOwners(r).turns ensures Listed(CapOwners(r).owners, key) {
      ListedSplit(r.owners[..k], r.owners[k..], key);
    }
  }

  lemma {:induction false} OneOwner(rs: seq<Roster>, o: Owner, c: SessionId)
    requires DistinctOwners(rs)
    ensures Listed(rs, ChildKey(o, c)) <==> HasChild(ChildrenOf(rs, o), c)
  {
    var i := FindOwner(rs, o);
    if k :| 0 <= k < |rs| && rs[k].owner == o && HasChild(rs[k].children, c) {
      assert k == i;
    }
  }

  // Rewriting one roster changes what is listed for its owner only.
  lemma PutRosterMeans(rs: seq<Roster>, o: Owner, cs: seq<Child>, key: ChildKey)
    requires DistinctOwners(rs)
    ensures Listed(PutRoster(rs, o, cs), key) <==> if key.owner == o then HasChild(cs, key.child) else Listed(rs, key)
  {
    var i := FindOwner(rs, o);
    var rest := RemoveAt(rs, i);
    ListedSplit(rest, [Roster(o, cs)], key);
    if i < |rs| {
      ListedSplit(rs[..i], rs[i + 1..], key);
      ListedSplit(rs[..i], [rs[i]], key);
      ListedSplit(rs[..i] + [rs[i]], rs[i + 1..], key);
      assert rs == rs[..i] + [rs[i]] + rs[i + 1..];
    }
    assert [Roster(o, cs)][0].owner == o;
    assert forall k :: 0 <= k < |rest| ==> rest[k].owner != o;
  }

  lemma PutRosterBounded(rs: seq<Roster>, o: Owner, cs: seq<Child>)
    requires Bounded(rs) && |cs| <= MAX_CHILDREN && DistinctChildren(cs)
    ensures Bounded(PutRoster(rs, o, cs))
  {
    var i := FindOwner(rs, o);
    if i < |rs| {
      RemoveAtIndex(rs, i);
    }
    var rest := RemoveAt(rs, i);
    assert DistinctOwners(rest) && forall k :: 0 <= k < |rest| ==> rest[k].owner != o;
  }

  lemma ChildrenBounded(rs: seq<Roster>, o: Owner)
    requires Bounded(rs)
    ensures |ChildrenOf(rs, o)| <= MAX_CHILDREN && DistinctChildren(ChildrenOf(rs, o))
  {
  }

  lemma PutChildMeans(cs: seq<Child>, c: SessionId, detail: Detail, now: int, x: SessionId)
    requires DistinctChildren(cs)
    ensures HasChild(PutChild(cs, c, detail, now), x) <==> x == c || HasChild(cs, x)
  {
    var cs' := PutChild(cs, c, detail, now);
    var i := FindChild(cs, c);
    if HasChild(cs, x) && x != c {
      var y :| y in cs && y.id == x;
      var j :| 0 <= j < |cs| && cs[j] == y;
      assert RemoveAt(cs, i)[if j < i then j else j - 1] == y;
    }
    assert cs'[|cs'| - 1].id == c;
  }

  lemma RemoveAtIndex<T>(s: seq<T>, i: nat)
    requires i < |s|
    ensures |RemoveAt(s, i)| == |s| - 1 && forall j :: 0 <= j < |s| - 1 ==> RemoveAt(s, i)[j] == s[if j < i then j else j + 1]
  {
  }

  lemma RemoveChildMeans(cs: seq<Child>, i: nat, x: SessionId)
    requires DistinctChildren(cs) && i < |cs|
    ensures HasChild(RemoveAt(cs, i), x) <==> x != cs[i].id && HasChild(cs, x)
  {
    var rest := RemoveAt(cs, i);
    RemoveAtIndex(cs, i);
    if HasChild(cs, x) && x != cs[i].id {
      var y :| y in cs && y.id == x;
      var j :| 0 <= j < |cs| && cs[j] == y;
      assert rest[if j < i then j else j - 1] == y;
    }
    if HasChild(rest, x) {
      var y :| y in rest && y.id == x;
      var j :| 0 <= j < |rest| && rest[j] == y;
      assert y == cs[if j < i then j else j + 1];
    }
  }

  lemma HasChildJoin(a: seq<Child>, b: seq<Child>, x: SessionId)
    ensures HasChild(a + b, x) <==> HasChild(a, x) || HasChild(b, x)
  {
    if HasChild(a, x) {
      var y :| y in a && y.id == x;
      assert y in a + b;
    }
    if HasChild(b, x) {
      var y :| y in b && y.id == x;
      assert y in a + b;
    }
  }

  lemma PutChildDistinct(cs: seq<Child>, c: SessionId, detail: Detail, now: int)
    requires DistinctChildren(cs)
    ensures DistinctChildren(PutChild(cs, c, detail, now))
  {
  }

  lemma SuffixHas(cs: seq<Child>, k: nat, x: SessionId)
    requires DistinctChildren(cs) && k <= |cs|
    ensures HasChild(cs[k..], x) <==> HasChild(cs, x) && !HasChild(cs[..k], x)
  {
    HasChildJoin(cs[..k], cs[k..], x);
    assert cs[..k] + cs[k..] == cs;
    if HasChild(cs[k..], x) {
      var y :| y in cs[k..] && y.id == x;
      var j :| k <= j < |cs| && cs[j] == y;
      assert forall i :: 0 <= i < k ==> cs[i].id != x;
    }
  }

  // What a join lists: the child, and what was listed before, minus the trimmed.
  lemma JoinListed(r: Rosters, o: Owner, c: SessionId, detail: Detail, turn: Option<Turn>, now: int, key: ChildKey)
    requires Bounded(r.owners)
    ensures var children := PutChild(ChildrenOf(r.owners, o), c, detail, now);
      var trimmed := key.owner == o && HasChild(children[..Excess(children, MAX_CHILDREN)], key.child);
      Listed(Join(r, o, c, detail, turn, now).owners, key) <==> (key == ChildKey(o, c) || Listed(r.owners, key)) && !trimmed
  {
    var earlier := ChildrenOf(r.owners, o);
    var children := PutChild(earlier, c, detail, now);
    var k := Excess(children, MAX_CHILDREN);
    PutRosterMeans(r.owners, o, children[k..], key);
    if key.owner == o {
      ChildrenBounded(r.owners, o);
      OneOwner(r.owners, o, key.child);
      PutChildMeans(earlier, c, detail, now, key.child);
      PutChildDistinct(earlier, c, detail, now);
      SuffixHas(children, k, key.child);
    }
  }

  lemma JoinLinked(r: Rosters, o: Owner, c: SessionId, detail: Detail, turn: Option<Turn>, now: int, x: ChildKey)
    requires Linked(r) && Bounded(r.owners) && x in Join(r, o, c, detail, turn, now).turns
    ensures Listed(Join(r, o, c, detail, turn, now).owners, x)
  {
    var key := ChildKey(o, c);
    var turns := if key !in r.turns && turn.Some? then r.turns[key := turn.value] else r.turns;
    var children := PutChild(ChildrenOf(r.owners, o), c, detail, now);
    ForgetChildrenMeans(turns, o, children[..Excess(children, MAX_CHILDREN)]);
    assert x == key || x in r.turns;
    JoinListed(r, o, c, detail, turn, now, x);
  }

  lemma JoinBounded(r: Rosters, o: Owner, c: SessionId, detail: Detail, turn: Option<Turn>, now: int)
    requires Bounded(r.owners)
    ensures Bounded(Join(r, o, c, detail, turn, now).owners)
  {
    var earlier := ChildrenOf(r.owners, o);
    var children := PutChild(earlier, c, detail, now);
    ChildrenBounded(r.owners, o);
    PutChildDistinct(earlier, c, detail, now);
    PutRosterBounded(r.owners, o, children[Excess(children, MAX_CHILDREN)..]);
  }

  lemma StartLinked(r: Rosters, o: Owner, c: SessionId, detail: Detail, turn: Option<Turn>, now: int)
    requires Linked(r) && Bounded(r.owners)
    ensures var r' := Start(r, o, c, detail, turn, now);
      Linked(r') && Bounded(r'.owners) && |r'.owners| <= MAX_OWNERS
  {
    var mid := Join(r, o, c, detail, turn, now);
    forall x | x in mid.turns ensures Listed(mid.owners, x) {
      JoinLinked(r, o, c, detail, turn, now, x);
    }
    JoinBounded(r, o, c, detail, turn, now);
    CapLinked(mid);
  }

  lemma StopListed(r: Rosters, o: Owner, c: SessionId, key: ChildKey)
    requires Bounded(r.owners) && FindOwner(r.owners, o) < |r.owners|
    ensures var children := ChildrenOf(r.owners, o);
      var i := FindChild(children, c);
      Listed(PutRoster(r.owners, o, RemoveAt(children, i)), key) <==> key != ChildKey(o, c) && Listed(r.owners, key)
  {
    var children := ChildrenOf(r.owners, o);
    var i := FindChild(children, c);
    ChildrenBounded(r.owners, o);
    PutRosterMeans(r.owners, o, RemoveAt(children, i), key);
    if key.owner == o {
      OneOwner(r.owners, o, key.child);
      if i < |children| {
        RemoveChildMeans(children, i, key.child);
      } else {
        HasFound(children, c);
      }
    }
  }

  lemma StopLinked(r: Rosters, o: Owner, c: SessionId)
    requires Linked(r) && Bounded(r.owners) && |r.owners| <= MAX_OWNERS
    ensures var r' := Stop(r, o, c).0;
      Linked(r') && Bounded(r'.owners) && |r'.owners| <= MAX_OWNERS
  {
    if FindOwner(r.owners, o) < |r.owners| {
      var children := ChildrenOf(r.owners, o);
      var i := FindChild(children, c);
      var owners' := PutRoster(r.owners, o, RemoveAt(children, i));
      ChildrenBounded(r.owners, o);
      PutRosterBounded(r.owners, o, RemoveAt(children, i));
      forall x | x in r.turns && x != ChildKey(o, c) ensures Listed(owners', x) {
        StopListed(r, o, c, x);
      }
      if i < |children| {
        CapLinked(Rosters(owners', r.turns - {ChildKey(o, c)}));
      } else {
        forall x | x in r.turns ensures Listed(owners', x) {
          assert Listed(r.owners, x);
          StopListed(r, o, c, x);
          OneOwner(r.owners, o, c);
          HasFound(children, c);
        }
      }
    }
  }

  lemma HasFound(cs: seq<Child>, c: SessionId)
    ensures HasChild(cs, c) <==> FindChild(cs, c) < |cs|
  {
    if x :| x in cs && x.id == c {
      var j :| 0 <= j < |cs| && cs[j] == x;
    }
  }

  ghost predicate RostersInv(r: Rosters) { Linked(r) && Bounded(r.owners) && |r.owners| <= MAX_OWNERS }

  /**
    Over every sequence of start and stop hooks, with every eviction they cause: at most 256 owners,
    each once, with at most 256 children, each once, and every parent turn names a child still listed.
  */
  lemma {:induction false} TurnsNameListedChildren(hs: seq<Hook>)
    ensures RostersInv(AfterHooks(Rosters([], map[]), hs))
    decreases |hs|
  {
    if hs != [] {
      TurnsNameListedChildren(hs[..|hs| - 1]);
      var r := AfterHooks(Rosters([], map[]), hs[..|hs| - 1]);
      match hs[|hs| - 1]
      case Started(o, c, detail, turn, now) => StartLinked(r, o, c, detail, turn, now);
      case Stopped(o, c) => StopLinked(r, o, c);
    }
  }

  // ---- Who is listed ----

  // The child's last hook was its start.
  predicate Running(hs: seq<Hook>, key: ChildKey)
    decreases |hs|
  {
    hs != [] &&
    var h := hs[|hs| - 1];
    if h.owner == key.owner && h.child == key.child then h.Started? else Running(hs[..|hs| - 1], key)
  }

  lemma CapListed(r: Rosters, key: ChildKey)
    ensures Listed(CapOwners(r).owners, key) ==> Listed(r.owners, key)
    ensures |r.owners| <= MAX_OWNERS ==> CapOwners(r).owners == r.owners
  {
    var k := Excess(r.owners, MAX_OWNERS);
    ListedSplit(r.owners[..k], r.owners[k..], key);
    assert r.owners[..k] + r.owners[k..] == r.owners;
  }

  // The hooks speak of no more owners, and no more children, than the rosters can hold.
  predicate WithinCapacity(hs: seq<Hook>, owners: set<Owner>, children: set<SessionId>) {
    && |owners| <= MAX_OWNERS && |children| <= MAX_CHILDREN
    && forall i :: 0 <= i < |hs| ==> hs[i].owner in owners && hs[i].child in children
  }

  ghost predicate Over(rs: seq<Roster>, owners: set<Owner>, children: set<SessionId>) {
    forall k :: 0 <= k < |rs| ==> rs[k].owner in owners && forall x :: x in rs[k].children ==> x.id in children
  }

  lemma ChildrenFit(cs: seq<Child>, all: set<SessionId>)
    requires DistinctChildren(cs) && forall x :: x in cs ==> x.id in all
    ensures |cs| <= |all|
  {
    Sets.DistinctFit(seq(|cs|, i requires 0 <= i < |cs| => cs[i].id), all);
  }

  lemma OwnersFit(rs: seq<Roster>, all: set<Owner>)
    requires DistinctOwners(rs) && forall k :: 0 <= k < |rs| ==> rs[k].owner in all
    ensures |rs| <= |all|
  {
    Sets.DistinctFit(seq(|rs|, i requires 0 <= i < |rs| => rs[i].owner), all);
  }

  lemma PutRosterOver(rs: seq<Roster>, o: Owner, cs: seq<Child>, owners: set<Owner>, children: set<SessionId>)
    requires Over(rs, owners, children) && o in owners && forall x :: x in cs ==> x.id in children
    ensures Over(PutRoster(rs, o, cs), owners, children)
  {
  }

  // Within capacity a start evicts nothing.
  lemma StartWithin(r: Rosters, o: Owner, c: SessionId, detail: Detail, turn: Option<Turn>, now: int, owners: set<Owner>, children: set<SessionId>)
    requires Bounded(r.owners) && Over(r.owners, owners, children) && o in owners && c in children
    requires |owners| <= MAX_OWNERS && |children| <= MAX_CHILDREN
    ensures var rs := Start(r, o, c, detail, turn, now).owners;
      Over(rs, owners, children) && rs == PutRoster(r.owners, o, PutChild(ChildrenOf(r.owners, o), c, detail, now))
  {
    var cs := PutChild(ChildrenOf(r.owners, o), c, detail, now);
    ChildrenBounded(r.owners, o);
    PutChildDistinct(ChildrenOf(r.owners, o), c, detail, now);
    ChildrenFit(cs, children);
    assert cs[Excess(cs, MAX_CHILDREN)..] == cs;
    PutRosterOver(r.owners, o, cs, owners, children);
    JoinBounded(r, o, c, detail, turn, now);
    OwnersFit(PutRoster(r.owners, o, cs), owners);
  }

  lemma StopOver(r: Rosters, o: Owner, c: SessionId, owners: set<Owner>, children: set<SessionId>)
    requires Bounded(r.owners) && |r.owners| <= MAX_OWNERS && Over(r.owners, owners, children)
    ensures Over(Stop(r, o, c).0.owners, owners, children)
  {
    if FindOwner(r.owners, o) < |r.owners| {
      var cs := ChildrenOf(r.owners, o);
      PutRosterOver(r.owners, o, RemoveAt(cs, FindChild(cs, c)), owners, children);
    }
  }

  lemma StopListedAfter(r: Rosters, o: Owner, c: SessionId, key: ChildKey)
    requires Bounded(r.owners) && |r.owners| <= MAX_OWNERS
    ensures Listed(Stop(r, o, c).0.owners, key) <==> key != ChildKey(o, c) && Listed(r.owners, key)
  {
    if FindOwner(r.owners, o) < |r.owners| {
      StopListed(r, o, c, key);
      var cs := ChildrenOf(r.owners, o);
      CapListed(Rosters(PutRoster(r.owners, o, RemoveAt(cs, FindChild(cs, c))), r.turns - {ChildKey(o, c)}), key);
    }
  }

  /**
    A roster never infers execution: over every run, a listed child is one whose last hook was its
    start. And it misses none unless it overflows: while the hooks name at most 256 owners and 256
    children, a child is listed if and only if its last hook was its start.
  */
  lemma {:induction false} ListedIffRunning(hs: seq<Hook>, owners: set<Owner>, children: set<SessionId>, key: ChildKey)
    ensures var rs := AfterHooks(Rosters([], map[]), hs).owners;
      && (Listed(rs, key) ==> Running(hs, key))
      && (WithinCapacity(hs, owners, children) ==> Over(rs, owners, children) && (Running(hs, key) ==> Listed(rs, key)))
    decreases |hs|
  {
    if hs != [] {
      var before := hs[..|hs| - 1];
      var r := AfterHooks(Rosters([], map[]), before);
      ListedIffRunning(before, owners, children, key);
      TurnsNameListedChildren(before);
      assert WithinCapacity(hs, owners, children) ==> WithinCapacity(before, owners, children);
      match hs[|hs| - 1]
      case Started(o, c, detail, turn, now) =>
        StartedStep(r, o, c, detail, turn, now, key);
        if WithinCapacity(hs, owners, children) {
          assert hs[|hs| - 1].owner in owners && hs[|hs| - 1].child in children;
          StartWithin(r, o, c, detail, turn, now, owners, children);
          ChildrenBounded(r.owners, o);
          OneOwner(r.owners, o, key.child);
          PutChildMeans(ChildrenOf(r.owners, o), c, detail, now, key.child);
          PutRosterMeans(r.owners, o, PutChild(ChildrenOf(r.owners, o), c, detail, now), key);
        }
      case Stopped(o, c) =>
        StopListedAfter(r, o, c, key);
        if WithinCapacity(hs, owners, children) {
          StopOver(r, o, c, owners, children);
        }
    }
  }

  lemma StartedStep(r: Rosters, o: Owner, c: SessionId, detail: Detail, turn: Option<Turn>, now: int, key: ChildKey)
    requires Bounded(r.owners)
    ensures Listed(Start(r, o, c, detail, turn, now).owners, key) ==> key == ChildKey(o, c) || Listed(r.owners, key)
  {
    JoinListed(r, o, c, detail, turn, now, key);
    CapListed(Join(r, o, c, detail, turn, now), key);
  }

  // ---- What a hook does ----

  function ChildrenBut(cs: seq<Child>, c: SessionId): seq<Child> {
    if cs == [] then [] else (if cs[0].id == c then [] else [cs[0]]) + ChildrenBut(cs[1..], c)
  }

  function OwnersBut(rs: seq<Roster>, o: Owner): seq<Roster> {
    if rs == [] then [] else (if rs[0].owner == o then [] else [rs[0]]) + OwnersBut(rs[1..], o)
  }

  lemma {:induction false} NoSuchChild(cs: seq<Child>, c: SessionId)
    requires forall x :: x in cs ==> x.id != c
    ensures ChildrenBut(cs, c) == cs
  {
    if cs != [] {
      assert cs[0] in cs;
      NoSuchChild(cs[1..], c);
    }
  }

  lemma {:induction false} ChildRemoved(cs: seq<Child>, c: SessionId)
    requires DistinctChildren(cs)
    ensures RemoveAt(cs, FindChild(cs, c)) == ChildrenBut(cs, c)
  {
    if cs != [] {
      if cs[0].id == c {
        NoSuchChild(cs[1..], c);
        assert cs[..0] + cs[1..] == cs[1..];
      } else {
        var i := FindChild(cs[1..], c);
        ChildRemoved(cs[1..], c);
        if i < |cs| - 1 {
          assert cs[..i + 1] + cs[i + 2..] == [cs[0]] + (cs[1..][..i] + cs[1..][i + 1..]);
        }
      }
    }
  }

  lemma {:induction false} NoSuchOwner(rs: seq<Roster>, o: Owner)
    requires forall x :: x in rs ==> x.owner != o
    ensures OwnersBut(rs, o) == rs
  {
    if rs != [] {
      assert rs[0] in rs;
      NoSuchOwner(rs[1..], o);
    }
  }

  lemma {:induction false} OwnerRemoved(rs: seq<Roster>, o: Owner)
    requires DistinctOwners(rs)
    ensures RemoveAt(rs, FindOwner(rs, o)) == OwnersBut(rs, o)
  {
    if rs != [] {
      if rs[0].owner == o {
        NoSuchOwner(rs[1..], o);
        assert rs[..0] + rs[1..] == rs[1..];
      } else {
        var i := FindOwner(rs[1..], o);
        OwnerRemoved(rs[1..], o);
        if i < |rs| - 1 {
          assert rs[..i + 1] + rs[i + 2..] == [rs[0]] + (rs[1..][..i] + rs[1..][i + 1..]);
        }
      }
    }
  }

  // When the child was first started, if its owner lists it.
  function FirstStart(cs: seq<Child>, c: SessionId): Option<int> {
    if cs == [] then None else if cs[0].id == c then Some(cs[0].startedAt) else FirstStart(cs[1..], c)
  }

  lemma {:induction false} FirstStartIs(cs: seq<Child>, c: SessionId)
    ensures FirstStart(cs, c) == var i := FindChild(cs, c); if i < |cs| then Some(cs[i].startedAt) else None
  {
    if cs != [] && cs[0].id != c {
      FirstStartIs(cs[1..], c);
    }
  }

  lemma LastNIsSuffix<T>(s: seq<T>, n: nat)
    ensures LastN(s, n) == s[Excess(s, n)..]
  {
  }

  /**
    A start hook. The child becomes the last of its owner's roster with the new details, but the time of its
    first start and its first turn; its owner becomes the last of the owners; and of either list the most
    recent 256 are left, in order.
  */
  lemma StartMeans(r: Rosters, o: Owner, c: SessionId, detail: Detail, turn: Option<Turn>, now: int)
    requires RostersInv(r)
    ensures var r' := Start(r, o, c, detail, turn, now); var earlier := ChildrenOf(r.owners, o);
      var first := FirstStart(earlier, c); var key := ChildKey(o, c);
      && r'.owners == LastN(OwnersBut(r.owners, o)
                            + [Roster(o, LastN(ChildrenBut(earlier, c) + [Child(c, detail, if first.Some? then first.value else now)], 256))], 256)
      && (key in r'.turns <==> key in r.turns || turn.Some?)
      && (key in r'.turns ==> r'.turns[key] == if key in r.turns then r.turns[key] else turn.value)
      && (forall k :: k in r'.turns && k != key ==> k in r.turns && r'.turns[k] == r.turns[k])
      && (forall k :: k in r.turns && k != key ==> (k in r'.turns <==> Listed(r'.owners, k)))
  {
    StartedOwners(r, o, c, detail, turn, now);
    StartedTurns(r, o, c, detail, turn, now);
    StartedKeys(r, o, c, detail, turn, now);
    hide Start, LastN, OwnersBut, ChildrenBut, Listed;
  }

  lemma StartedOwners(r: Rosters, o: Owner, c: SessionId, detail: Detail, turn: Option<Turn>, now: int)
    requires RostersInv(r)
    ensures var earlier := ChildrenOf(r.owners, o); var first := FirstStart(earlier, c);
      Start(r, o, c, detail, turn, now).owners
      == LastN(OwnersBut(r.owners, o)
               + [Roster(o, LastN(ChildrenBut(earlier, c) + [Child(c, detail, if first.Some? then first.value else now)], 256))], 256)
  {
    var earlier := ChildrenOf(r.owners, o);
    ChildrenBounded(r.owners, o);
    ChildRemoved(earlier, c);
    OwnerRemoved(r.owners, o);
    FirstStartIs(earlier, c);
    LastNIsSuffix(PutChild(earlier, c, detail, now), 256);
    hide Linked, FindOwner, FindChild, RemoveAt, ForgetOwners, ForgetChildren;
    var children := PutChild(earlier, c, detail, now);
    LastNIsSuffix(PutRoster(r.owners, o, children[Excess(children, 256)..]), 256);
    hide LastN, Excess;
  }

  // The turns a start keeps are those it found, and the child's own.
  lemma StartedTurns(r: Rosters, o: Owner, c: SessionId, detail: Detail, turn: Option<Turn>, now: int)
    requires RostersInv(r)
    ensures var r' := Start(r, o, c, detail, turn, now); var key := ChildKey(o, c);
      && (key in r'.turns ==> (key in r.turns || turn.Some?) && r'.turns[key] == if key in r.turns then r.turns[key] else turn.value)
      && (forall k :: k in r'.turns && k != key ==> k in r.turns && r'.turns[k] == r.turns[k])
  {
    var key := ChildKey(o, c);
    var turns := if key !in r.turns && turn.Some? then r.turns[key := turn.value] else r.turns;
    var children := PutChild(ChildrenOf(r.owners, o), c, detail, now);
    var gone := children[..Excess(children, MAX_CHILDREN)];
    ForgottenWithin(turns, o, gone);
    var mid := Join(r, o, c, detail, turn, now);
    ForgottenOwnersWithin(mid.turns, mid.owners[..Excess(mid.owners, MAX_OWNERS)]);
  }

  lemma {:induction false} ForgottenWithin(turns: map<ChildKey, Turn>, o: Owner, gone: seq<Child>)
    ensures forall k :: k in ForgetChildren(turns, o, gone) ==> k in turns && ForgetChildren(turns, o, gone)[k] == turns[k]
    decreases |gone|
  {
    if gone != [] {
      ForgottenWithin(turns - {ChildKey(o, gone[0].id)}, o, gone[1..]);
    }
  }

  lemma {:induction false} ForgottenOwnersWithin(turns: map<ChildKey, Turn>, gone: seq<Roster>)
    ensures forall k :: k in ForgetOwners(turns, gone) ==> k in turns && ForgetOwners(turns, gone)[k] == turns[k]
    decreases |gone|
  {
    if gone != [] {
      ForgottenWithin(turns, gone[0].owner, gone[0].children);
      ForgottenOwnersWithin(ForgetChildren(turns, gone[0].owner, gone[0].children), gone[1..]);
    }
  }

  // A turn that was there stays exactly while its child is listed.
  lemma StartedKeys(r: Rosters, o: Owner, c: SessionId, detail: Detail, turn: Option<Turn>, now: int)
    requires RostersInv(r)
    ensures var r' := Start(r, o, c, detail, turn, now); var key := ChildKey(o, c);
      && (key in r.turns || turn.Some? ==> key in r'.turns)
      && (forall k :: k in r.turns && k != key ==> (k in r'.turns <==> Listed(r'.owners, k)))
  {
    var key := ChildKey(o, c);
    var r' := Start(r, o, c, detail, turn, now);
    StartLinked(r, o, c, detail, turn, now);
    NewestIsListed(r, o, c, detail, turn, now);
    forall k | (k in r.turns || (k == key && turn.Some?)) && Listed(r'.owners, k) ensures k in r'.turns {
      ListedKeepsTurn(r, o, c, detail, turn, now, k);
    }
    hide Start, Listed;
  }

  lemma NewestIsListed(r: Rosters, o: Owner, c: SessionId, detail: Detail, turn: Option<Turn>, now: int)
    requires RostersInv(r)
    ensures Listed(Start(r, o, c, detail, turn, now).owners, ChildKey(o, c))
  {
    var children := PutChild(ChildrenOf(r.owners, o), c, detail, now);
    var k := Excess(children, MAX_CHILDREN);
    var last := children[|children| - 1];
    assert children[k..][|children| - k - 1] == last && last in children[k..];
    assert HasChild(children[k..], c);
    var rs := Join(r, o, c, detail, turn, now).owners;
    var owners := Start(r, o, c, detail, turn, now).owners;
    assert owners[|owners| - 1] == rs[|rs| - 1] == Roster(o, children[k..]);
  }

  lemma ListedKeepsTurn(r: Rosters, o: Owner, c: SessionId, detail: Detail, turn: Option<Turn>, now: int, k: ChildKey)
    requires RostersInv(r) && (k in r.turns || (k == ChildKey(o, c) && turn.Some?)) && Listed(Start(r, o, c, detail, turn, now).owners, k)
    ensures k in Start(r, o, c, detail, turn, now).turns
  {
    var key := ChildKey(o, c);
    var turns := if key !in r.turns && turn.Some? then r.turns[key := turn.value] else r.turns;
    var children := PutChild(ChildrenOf(r.owners, o), c, detail, now);
    var n := Excess(children, MAX_CHILDREN);
    ForgetChildrenMeans(turns, o, children[..n]);
    var mid := Join(r, o, c, detail, turn, now);
    JoinBounded(r, o, c, detail, turn, now);
    CapListed(mid, k);
    JoinListed(r, o, c, detail, turn, now, k);
    CapKeepsTurn(mid, k);
    hide PutChild, Join, Listed, HasChild, ForgetChildren;
  }

  lemma CapKeepsTurn(r: Rosters, k: ChildKey)
    requires Bounded(r.owners) && k in r.turns && Listed(CapOwners(r).owners, k)
    ensures k in CapOwners(r).turns
  {
    var n := Excess(r.owners, MAX_OWNERS);
    ForgetOwnersMeans(r.turns, r.owners[..n]);
    NotBoth(r.owners, n, k);
  }

  // An owner has one roster, so what is listed in one half of the rosters is not in the other.
  lemma NotBoth(rs: seq<Roster>, n: nat, k: ChildKey)
    requires DistinctOwners(rs) && n <= |rs|
    ensures !(Listed(rs[..n], k) && Listed(rs[n..], k))
  {
    forall i, j | 0 <= i < n && 0 <= j < |rs| - n ensures rs[..n][i].owner != rs[n..][j].owner {
      assert rs[i].owner != rs[n + j].owner;
    }
  }

  /**
    A stop hook is known if and only if the child is listed. Then the child and its turn go, and nothing
    else; an unknown one changes at most which owner is the most recent.
  */
  lemma StopMeans(r: Rosters, o: Owner, c: SessionId)
    requires RostersInv(r)
    ensures var (r', known) := Stop(r, o, c); var earlier := ChildrenOf(r.owners, o);
      && (known <==> Listed(r.owners, ChildKey(o, c)))
      && (known ==> r'.owners == OwnersBut(r.owners, o) + [Roster(o, ChildrenBut(earlier, c))] && r'.turns == r.turns - {ChildKey(o, c)})
      && (!known ==> r'.turns == r.turns && (r'.owners == r.owners || r'.owners == OwnersBut(r.owners, o) + [Roster(o, earlier)]))
  {
    var earlier := ChildrenOf(r.owners, o);
    ChildrenBounded(r.owners, o);
    ChildRemoved(earlier, c);
    OwnerRemoved(r.owners, o);
    OneOwner(r.owners, o, c);
    HasFound(earlier, c);
    hide Linked, Bounded, Listed, ChildrenBut, OwnersBut, HasChild, ForgetChildren;
    if FindOwner(r.owners, o) < |r.owners| && FindChild(earlier, c) < |earlier| {
      var rs := PutRoster(r.owners, o, RemoveAt(earlier, FindChild(earlier, c)));
      assert |rs| == |r.owners|;
      assert rs[0..] == rs && rs[..0] == [];
    }
  }
}
