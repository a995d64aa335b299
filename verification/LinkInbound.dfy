/**
  Inbound dispatch of one Loopdy Link client: the queue between the socket and the application
  callback, the per-sender record of what was consumed, and the receipts sent to the relay. The
  single dispatcher suspends inside the application callback and inside the correlated reply, and
  it writes back the sequence map it read before suspending.
*/
module LinkInbound {
  import opened Numbers
  import opened Wrappers

  type DeviceId = string
  type Sequences = map<DeviceId, int>

  datatype Frame = Frame(sender: DeviceId, sequence: int, id: nat)

  // What the receive loop queued for a frame: a parsed payload, or why there is none.
  datatype Inbound =
    | Ignored                       // addressed to another host: recorded without a callback
    | Rejected                      // authenticated but malformed
    | AttachmentMissing             // a turn whose attachment is gone: a failed reply is owed
    | HostRelay(expired: bool)      // relay.ready; `expired` is judged when the item is taken
    | LinkWake
    | Turn
    | Other

  datatype Item = Item(frame: Frame, inbound: Inbound)

  datatype CallbackResult = Returned | Raised | RaisedExpired

  // Where the dispatcher is suspended; `sequences` is the map it read when it took the item.
  datatype Stage =
    | Idle
    | InCallback(item: Item, sequences: Sequences)
    | Accepting(item: Item, sequences: Sequences)  // awaiting delivery of an accepted reply
    | Failing(item: Item)                          // awaiting delivery of a failed reply

  datatype Dispatch = Dispatch(
    received: Sequences,     // durable: received_sequences
    lastReceived: int,       // durable: last_received_sequence
    queue: seq<Item>,
    stage: Stage,
    calls: seq<Frame>,       // history: frames handed to the application
    receipts: seq<Frame>)    // history: receipts written to a socket

  predicate Seen(received: Sequences, f: Frame) {
    f.sender in received && f.sequence <= received[f.sender]
  }

  // Record a frame in the given map, then send its receipt.
  function Recording(d: Dispatch, sequences: Sequences, f: Frame): Dispatch {
    d.(received := sequences[f.sender := f.sequence], lastReceived := Max(d.lastReceived, f.sequence),
       receipts := d.receipts + [f], stage := Idle)
  }

  // _accept_inbound_frame: reads the record afresh, so a repeat is only receipted.
  function Accept(d: Dispatch, f: Frame): Dispatch {
    if Seen(d.received, f) then d.(receipts := d.receipts + [f], stage := Idle)
    else Recording(d, d.received, f)
  }

  function Taken(d: Dispatch): Dispatch {
    if d.queue == [] || !d.stage.Idle? then d
    else
      var item, rest := d.queue[0], d.(queue := d.queue[1..]);
      if Seen(d.received, item.frame) then rest.(receipts := d.receipts + [item.frame])
      else match item.inbound
        case Rejected => Accept(rest, item.frame)
        case AttachmentMissing => rest.(stage := Failing(item))
        case Ignored => Recording(rest, d.received, item.frame)
        case HostRelay(true) => Accept(rest, item.frame)
        case _ => rest.(stage := InCallback(item, d.received), calls := d.calls + [item.frame])
  }

  function CallbackFinished(d: Dispatch, result: CallbackResult): Dispatch {
    if !d.stage.InCallback? then d
    else
      var item, sequences := d.stage.item, d.stage.sequences;
      match result
      case Returned =>
        if item.inbound.Turn? then d.(stage := Accepting(item, sequences)) else Recording(d, sequences, item.frame)
      case _ =>
        if item.inbound.HostRelay? && result.RaisedExpired? then Accept(d, item.frame)
        else if item.inbound.HostRelay? || item.inbound.LinkWake? then d.(stage := Idle)  // reconnect, unrecorded
        else if item.inbound.Turn? then d.(stage := Failing(item))
        else Accept(d, item.frame)
  }

  function ReplyFinished(d: Dispatch, delivered: bool): Dispatch {
    match d.stage
    case Accepting(item, sequences) => if delivered then Recording(d, sequences, item.frame) else d.(stage := Idle)
    case Failing(item) => if delivered then Accept(d, item.frame) else d.(stage := Idle)
    case _ => d
  }

  datatype Step =
    | Enqueue(item: Item)
    | Take
    | FinishCallback(result: CallbackResult)
    | FinishReply(delivered: bool)
    | Drop                       // disconnect, stop or restart: the dispatcher is cancelled, the queue emptied
    | MergeAck(serverAck: int)   // readiness raises last_received_sequence

  function Apply(d: Dispatch, step: Step): Dispatch {
    match step
    case Enqueue(item) => d.(queue := d.queue + [item])
    case Take => Taken(d)
    case FinishCallback(result) => CallbackFinished(d, result)
    case FinishReply(delivered) => ReplyFinished(d, delivered)
    case Drop => d.(queue := [], stage := Idle)
    case MergeAck(serverAck) => d.(lastReceived := Max(d.lastReceived, serverAck))
  }

  function Run(d: Dispatch, steps: seq<Step>): Dispatch
    decreases |steps|
  {
    if steps == [] then d else Run(Apply(d, steps[0]), steps[1..])
  }

  /** The dispatcher's durable and volatile state, updated the way the coroutine updates it. */
  class InboundDispatcher {
    var received: Sequences
    var lastReceived: int
    var queue: seq<Item>
    var stage: Stage
    ghost var calls: seq<Frame>
    ghost var receipts: seq<Frame>

    ghost function Snapshot(): Dispatch
      reads this
    {
      Dispatch(received, lastReceived, queue, stage, calls, receipts)
    }

    constructor (durable: Sequences, last: int)
      ensures Snapshot() == Dispatch(durable, last, [], Idle, [], [])
    {
      received, lastReceived, queue, stage, calls, receipts := durable, last, [], Idle, [], [];
    }

    method Enqueue(item: Item)
      modifies this`queue
      ensures Snapshot() == Apply(old(Snapshot()), Step.Enqueue(item))
    {
      queue := queue + [item];
    }

    method SendReceipt(f: Frame)
      modifies this`receipts
      ensures receipts == old(receipts) + [f]
    {
      receipts := receipts + [f];
    }

    method Record(sequences: Sequences, f: Frame)
      modifies this
      ensures Snapshot() == Recording(old(Snapshot()), sequences, f)
    {
      received := sequences[f.sender := f.sequence];
      if lastReceived < f.sequence {
        lastReceived := f.sequence;
      }
      stage := Idle;
      SendReceipt(f);
    }

    method AcceptInboundFrame(f: Frame)
      modifies this
      ensures Snapshot() == Accept(old(Snapshot()), f)
    {
      if f.sender in received && f.sequence <= received[f.sender] {
        stage := Idle;
        SendReceipt(f);
      } else {
        Record(received, f);
      }
    }

    // One turn of the dispatch loop, up to its first suspension.
    method TakeNext() returns (called: Option<Item>)
      modifies this
      ensures Snapshot() == Taken(old(Snapshot()))
      ensures called.Some? <==> calls != old(calls)
      ensures called.Some? ==> stage == InCallback(called.value, old(received))
    {
      called := None;
      if |queue| == 0 || !stage.Idle? {
        return;
      }
      var item := queue[0];
      queue := queue[1..];
      var sequences := received;
      if item.frame.sender in sequences && item.frame.sequence <= sequences[item.frame.sender] {
        SendReceipt(item.frame);
        return;
      }
      match item.inbound {
        case Rejected => AcceptInboundFrame(item.frame);
        case AttachmentMissing => stage := Failing(item);
        case Ignored => Record(sequences, item.frame);
        case HostRelay(true) => AcceptInboundFrame(item.frame);
        case _ =>
          stage := InCallback(item, sequences);
          calls := calls + [item.frame];
          called := Some(item);
      }
    }

    method ResumeFromCallback(result: CallbackResult)
      requires stage.InCallback?
      modifies this
      ensures Snapshot() == CallbackFinished(old(Snapshot()), result)
    {
      var item, sequences := stage.item, stage.sequences;
      if result.Returned? {
        if item.inbound.Turn? {
          stage := Accepting(item, sequences);
        } else {
          Record(sequences, item.frame);
        }
      } else if item.inbound.HostRelay? && result.RaisedExpired? {
        AcceptInboundFrame(item.frame);
      } else if item.inbound.HostRelay? || item.inbound.LinkWake? {
        stage := Idle;
      } else if item.inbound.Turn? {
        stage := Failing(item);
      } else {
        AcceptInboundFrame(item.frame);
      }
    }

    method ResumeFromReply(delivered: bool)
      requires stage.Accepting? || stage.Failing?
      modifies this
      ensures Snapshot() == ReplyFinished(old(Snapshot()), delivered)
    {
      if !delivered {
        stage := Idle;
      } else if stage.Accepting? {
        Record(stage.sequences, stage.item.frame);
      } else {
        AcceptInboundFrame(stage.item.frame);
      }
    }

    method Stop()
      modifies this`queue, this`stage
      ensures Snapshot() == Apply(old(Snapshot()), Drop)
    {
      queue, stage := [], Idle;
    }
  }

  // ---- Safety over every run ----

  predicate Covers(low: Sequences, high: Sequences) {
    forall d :: d in low ==> d in high && low[d] <= high[d]
  }

  /**
    The map a suspended dispatcher will write back is still the recorded one, and the frame it
    holds is beyond it; every receipt is for a recorded frame.
  */
  ghost predicate Inv(d: Dispatch) {
    && (d.stage.InCallback? || d.stage.Accepting? ==>
          d.stage.sequences == d.received && !Seen(d.received, d.stage.item.frame))
    && (forall i :: 0 <= i < |d.receipts| ==> Seen(d.received, d.receipts[i]))
  }

  // What one step may do, seen from outside.
  ghost predicate Advances(d: Dispatch, d': Dispatch) {
    && Covers(d.received, d'.received) && d.lastReceived <= d'.lastReceived
    && d.calls <= d'.calls && d.receipts <= d'.receipts
    && (forall i :: |d.calls| <= i < |d'.calls| ==> !Seen(d.received, d'.calls[i]))
  }

  lemma RecordingAdvances(d: Dispatch, f: Frame)
    requires Inv(d) && !Seen(d.received, f)
    ensures Inv(Recording(d, d.received, f)) && Advances(d, Recording(d, d.received, f))
  {
    var d' := Recording(d, d.received, f);
    forall i | 0 <= i < |d'.receipts| ensures Seen(d'.received, d'.receipts[i]) {
      if i < |d.receipts| {
        assert d'.receipts[i] == d.receipts[i];
      }
    }
  }

  lemma AcceptAdvances(d: Dispatch, f: Frame)
    requires Inv(d)
    ensures Inv(Accept(d, f)) && Advances(d, Accept(d, f))
  {
    if !Seen(d.received, f) {
      RecordingAdvances(d, f);
    }
  }

  lemma StepAdvances(d: Dispatch, step: Step)
    requires Inv(d)
    ensures Inv(Apply(d, step)) && Advances(d, Apply(d, step))
  {
    match step
    case Take =>
      if d.queue != [] && d.stage.Idle? {
        var rest := d.(queue := d.queue[1..]);
        AcceptAdvances(rest, d.queue[0].frame);
        if !Seen(d.received, d.queue[0].frame) {
          RecordingAdvances(rest, d.queue[0].frame);
        }
      }
    case FinishCallback(result) =>
      if d.stage.InCallback? {
        RecordingAdvances(d, d.stage.item.frame);
        AcceptAdvances(d, d.stage.item.frame);
      }
    case FinishReply(delivered) =>
      if d.stage.Accepting? {
        RecordingAdvances(d, d.stage.item.frame);
      } else if d.stage.Failing? {
        AcceptAdvances(d, d.stage.item.frame);
      }
    case Enqueue(_) =>
    case Drop =>
    case MergeAck(_) =>
  }

  /**
    Over every run: no sender's recorded sequence and no high-water mark ever decreases, every
    receipt - old or new - is for a frame at or below its sender's recorded sequence, and a frame
    already recorded never reaches the application again.
  */
  lemma {:induction false} InboundSafety(d: Dispatch, steps: seq<Step>)
    requires Inv(d)
    ensures Inv(Run(d, steps)) && Advances(d, Run(d, steps))
    decreases |steps|
  {
    if steps != [] {
      var d1, d2 := Apply(d, steps[0]), Run(Apply(d, steps[0]), steps[1..]);
      StepAdvances(d, steps[0]);
      InboundSafety(d1, steps[1..]);
      forall i | |d.calls| <= i < |d2.calls| ensures !Seen(d.received, d2.calls[i]) {
        if i < |d1.calls| {
          assert d2.calls[i] == d1.calls[i];
        }
      }
    }
  }

  /** A frame whose callback returned and that was then recorded is never handed over a second time. */
  lemma CompletedNeverRepeats(d: Dispatch, more: seq<Step>, again: nat)
    requires Inv(d) && d.stage.InCallback? && !d.stage.item.inbound.Turn?
    ensures var done := Apply(d, FinishCallback(Returned));
      |done.calls| <= again < |Run(done, more).calls| ==> Run(done, more).calls[again] != d.stage.item.frame
  {
    var done := Apply(d, FinishCallback(Returned));
    StepAdvances(d, FinishCallback(Returned));
    InboundSafety(done, more);
    assert Seen(done.received, d.stage.item.frame);
  }

  /** The same for a user turn, once the relay has taken the reply that tells its sender it was accepted. */
  lemma AnsweredTurnNeverRepeats(d: Dispatch, more: seq<Step>, again: nat)
    requires Inv(d) && d.stage.Accepting?
    ensures var done := Apply(d, FinishReply(true));
      |done.calls| <= again < |Run(done, more).calls| ==> Run(done, more).calls[again] != d.stage.item.frame
  {
    var done := Apply(d, FinishReply(true));
    StepAdvances(d, FinishReply(true));
    InboundSafety(done, more);
    assert Seen(done.received, d.stage.item.frame);
  }

  // ---- What becomes of each item ----

  // The dispatcher is done with the frame: it is receipted, its sender's record covers it, and no other record moves.
  ghost predicate Consumes(d: Dispatch, d': Dispatch, f: Frame) {
    && d'.stage == Idle && d'.receipts == d.receipts + [f]
    && f.sender in d'.received && d'.received.Keys == d.received.Keys + {f.sender}
    && (forall s :: s in d.received && s != f.sender ==> d'.received[s] == d.received[s])
    && (if f.sender in d.received && f.sequence <= d.received[f.sender]
        then d'.received[f.sender] == d.received[f.sender] && d'.lastReceived == d.lastReceived
        else d'.received[f.sender] == f.sequence && d'.lastReceived == Max(d.lastReceived, f.sequence))
  }

  // Nothing durable is written and no receipt is sent, so that the relay delivers the frame again.
  ghost predicate Owes(d: Dispatch, d': Dispatch) {
    (d'.received, d'.lastReceived, d'.receipts) == (d.received, d.lastReceived, d.receipts)
  }

  lemma AcceptConsumes(d: Dispatch, f: Frame)
    ensures Consumes(d, Accept(d, f), f) && (Accept(d, f).queue, Accept(d, f).calls) == (d.queue, d.calls)
    ensures !Seen(d.received, f) ==> Recording(d, d.received, f) == Accept(d, f)
  {
    if Seen(d.received, f) {
      assert d.received.Keys + {f.sender} == d.received.Keys;
    }
  }

  /**
    What taking an item does. It leaves the queue. A frame recorded before, a malformed one, one for another
    host and an expired invitation are consumed on the spot, and every other frame is handed to the
    application - except a turn that lost its attachment, for which a failed reply is owed.
  */
  lemma TakeMeans(d: Dispatch)
    requires d.queue != [] && d.stage.Idle?
    ensures var (item, d') := (d.queue[0], Apply(d, Take)); var f := item.frame;
      var repeated := f.sender in d.received && f.sequence <= d.received[f.sender];
      var unheard := item.inbound.Rejected? || item.inbound.Ignored? || item.inbound == HostRelay(true);
      && d'.queue == d.queue[1..]
      && (repeated || unheard ==> Consumes(d, d', f) && d'.calls == d.calls)
      && (!repeated && item.inbound.AttachmentMissing? ==> Owes(d, d') && d'.stage == Failing(item) && d'.calls == d.calls)
      && (!repeated && !unheard && !item.inbound.AttachmentMissing? ==>
            Owes(d, d') && d'.stage == InCallback(item, d.received) && d'.calls == d.calls + [f])
  {
    AcceptConsumes(d.(queue := d.queue[1..]), d.queue[0].frame);
    hide Accept, Recording;
  }

  /**
    What the application's answer does. A turn goes on to its reply, accepted or failed. Of the others, what
    returned is consumed, and what raised is consumed too, except an invitation that is still valid and a
    wake-up, which are left to be delivered again.
  */
  lemma CallbackMeans(d: Dispatch, result: CallbackResult)
    requires Inv(d) && d.stage.InCallback?
    ensures var (item, d') := (d.stage.item, Apply(d, FinishCallback(result)));
      var again := !result.Returned? && (item.inbound.LinkWake? || (item.inbound.HostRelay? && !result.RaisedExpired?));
      && (d'.queue, d'.calls) == (d.queue, d.calls)
      && (item.inbound.Turn? ==> Owes(d, d') && d'.stage == if result.Returned? then Accepting(item, d.stage.sequences) else Failing(item))
      && (!item.inbound.Turn? && again ==> Owes(d, d') && d'.stage == Idle)
      && (!item.inbound.Turn? && !again ==> Consumes(d, d', item.frame))
  {
    AcceptConsumes(d, d.stage.item.frame);
    hide Accept, Recording;
  }

  /** A turn is consumed exactly when the relay takes its reply, accepted or failed; otherwise it is owed. */
  lemma ReplyMeans(d: Dispatch, delivered: bool)
    requires Inv(d) && (d.stage.Accepting? || d.stage.Failing?)
    ensures var (item, d') := (d.stage.item, Apply(d, FinishReply(delivered)));
      && (d'.queue, d'.calls) == (d.queue, d.calls) && d'.stage == Idle
      && (if delivered then Consumes(d, d', item.frame) else Owes(d, d'))
  {
    AcceptConsumes(d, d.stage.item.frame);
    hide Accept, Recording;
  }

  // Handed to the application at all.
  predicate IsHeard(inbound: Inbound) { inbound.LinkWake? || inbound.Turn? || inbound.Other? || inbound == HostRelay(false) }

  lemma RunStep(d: Dispatch, step: Step, rest: seq<Step>)
    ensures Run(d, [step] + rest) == Run(Apply(d, step), rest)
  {
    assert ([step] + rest)[1..] == rest;
  }

  /**
    A delivery in which everything works consumes the frame, whatever it is, and the application hears it
    exactly once if it is new and of a kind that is heard.
  */
  lemma DeliveryConsumes(d: Dispatch, item: Item)
    requires Inv(d) && d.stage.Idle? && d.queue == []
    ensures var d' := Run(d, [Enqueue(item)] + ([Take] + ([FinishCallback(Returned)] + ([FinishReply(true)] + []))));
      && Consumes(d, d', item.frame) && d'.queue == []
      && d'.calls == d.calls + if IsHeard(item.inbound) && !Seen(d.received, item.frame) then [item.frame] else []
  {
    var d1 := Apply(d, Enqueue(item));
    var d2 := Apply(d1, Take);
    var d3 := Apply(d2, FinishCallback(Returned));
    RunStep(d, Enqueue(item), [Take] + ([FinishCallback(Returned)] + ([FinishReply(true)] + [])));
    RunStep(d1, Take, [FinishCallback(Returned)] + ([FinishReply(true)] + []));
    RunStep(d2, FinishCallback(Returned), [FinishReply(true)] + []);
    RunStep(d3, FinishReply(true), []);
    assert d1.queue == [item] && [item][1..] == [];
    TakeMeans(d1);
    StepAdvances(d1, Take);
    StepAdvances(d2, FinishCallback(Returned));
    if d2.stage.InCallback? {
      CallbackMeans(d2, Returned);
    }
    if d3.stage.Accepting? || d3.stage.Failing? {
      ReplyMeans(d3, true);
    }
    hide Taken, Accept, Recording, Inv, Run, Advances;
  }

  /**
    And one cut off anywhere owes it: while the dispatcher holds a new frame, dropping the connection
    writes nothing, and the frame, delivered again, is consumed as if it had never come before.
  */
  lemma InterruptedIsRedelivered(d: Dispatch, item: Item)
    requires Inv(d) && !d.stage.Idle? && !Seen(d.received, d.stage.item.frame)
    ensures var d' := Apply(d, Drop);
      && Owes(d, d') && d'.stage == Idle && d'.queue == [] && d'.calls == d.calls && Inv(d')
      && var d'' := Run(d', [Enqueue(item)] + ([Take] + ([FinishCallback(Returned)] + ([FinishReply(true)] + []))));
         Consumes(d', d'', item.frame)
  {
    StepAdvances(d, Drop);
    DeliveryConsumes(Apply(d, Drop), item);
    hide Run, Consumes;
  }
}
