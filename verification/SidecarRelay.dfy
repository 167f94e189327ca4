/** One session of the relay: the goroutine that maps and submits blocks, the one that sends them, and the
    one that takes in statuses, interleaved at the grain of one shared operation. */
module RelaySteps {
  import opened BlockMapping
  import opened Common
  import opened InFlightRing
  import opened TxIdDedups

  datatype Ref = Ref(block: nat, num: nat)

  /** What the relay keeps of a block until it is committed. */
  datatype BlockStatus = BlockStatus(number: nat, ids: seq<TxId>, status: seq<Status>, pending: int)

  /** A mapped block: the positions to submit together, and the snapshot transaction to submit alone. */
  datatype MappedBlock = MappedBlock(withStatus: BlockStatus, txs: set<nat>, snapshot: Option<nat>, isConfig: bool)

  datatype Kind = Plain | OfConfig | OfSnapshot

  /** What goes to the coordinator at once. All but the plain ones are barriers: drained for before and
      after. */
  datatype Segment = Segment(block: nat, refs: set<Ref>, kind: Kind)

  datatype Action = Drain | Submit(seg: Segment) | Enqueue(seg: Segment)

  datatype Sender =
    | Ready
    | Got(seg: Segment)
    | Registered(seg: Segment)
    | Checked(seg: Segment)
    | Emitting(seg: Segment)
    | Sending(seg: Segment)
    | Failed

  /** A status for the position and ID it names. ours is false for a leftover of an earlier session. */
  datatype Report = Report(ref: Ref, id: TxId, status: Status, ours: bool)

  datatype Receiver =
    | Idle
    | Processing(todo: seq<Report>, processed: nat)
    | Released
    | Committing
    | Ended
    | Broken

  datatype Who = BySender | ByReceiver

  /** blocks are all blocks of the session, from number start on; [next, next + count) is the window in
      flight. sent is what the coordinator holds, unanswered what has a slot and no recorded result.
      largest is the size of the largest segment so far, configs and snapshots are what was submitted as
      such, barrier is the one not drained yet. mapped are the blocks as they came from mapping, reported is
      what the coordinator said of each transaction. */
  datatype State = State(
    start: nat, limit: nat,
    available: int, todo: seq<Action>, queue: seq<Segment>, sender: Sender, receiver: Receiver, lock: Option<Who>,
    blocks: seq<BlockStatus>, next: nat, count: nat, emitted: seq<BlockStatus>,
    sent: set<Ref>, unanswered: set<Ref>, largest: nat, configs: set<Ref>, snapshots: set<Ref>,
    barrier: Option<Segment>, mapped: seq<BlockStatus>, reported: map<Ref, Status>)

  datatype Event =
    | TakeBlock(b: MappedBlock) | DrainDone | Acquire | Write
    | ReadSegment | Register | Check | Send
    | Deliver(batch: seq<Report>) | Process | Release | Feedback(ref: Ref)
    | Lock(who: Who) | Emit(who: Who) | Unlock(who: Who)

  // ---------------------------------------------------------------------
  // Mapped blocks.

  function Refs(block: nat, nums: set<nat>): set<Ref> {
    set n | n in nums :: Ref(block, n)
  }

  /** The segments of a block and the drains around them. */
  function Actions(b: MappedBlock): seq<Action> {
    var number := b.withStatus.number;
    if b.isConfig then
      [Drain, Submit(Segment(number, Refs(number, b.txs), OfConfig)), Drain]
    else if b.snapshot.Some? then
      (if b.txs != {} then [Submit(Segment(number, Refs(number, b.txs), Plain))] else [])
      + [Drain, Submit(Segment(number, {Ref(number, b.snapshot.value)}, OfSnapshot)), Drain]
    else
      [Submit(Segment(number, Refs(number, b.txs), Plain))]
  }

  /** What mapping promises: the positions without a final status are those to submit, and the pending
      count is their number. */
  ghost predicate WellMapped(b: MappedBlock) {
    && |b.withStatus.ids| == |b.withStatus.status| && b.withStatus.pending == Unset(b.withStatus.status)
    && (b.snapshot.Some? ==> b.snapshot.value !in b.txs)
    && (b.isConfig ==> b.txs != {})
    && forall n :: 0 <= n < |b.withStatus.status| && b.withStatus.status[n] == Unspecified <==>
         n in b.txs || b.snapshot == Some(n)
  }

  // ---------------------------------------------------------------------
  // Steps.

  predicate Tracked(s: State, number: nat) {
    s.next <= number < s.next + s.count && s.start <= number && number - s.start < |s.blocks|
  }

  function BlockAt(s: State, number: nat): BlockStatus
    requires s.start <= number && number - s.start < |s.blocks|
  {
    s.blocks[number - s.start]
  }

  predicate Held(s: State, ref: Ref, id: TxId) {
    Tracked(s, ref.block) && ref.num < |BlockAt(s, ref.block).ids| && BlockAt(s, ref.block).ids[ref.num] == id
  }

  /** A block the sender asks about is in flight or was committed, with nothing pending, meanwhile. */
  function PendingOf(s: State, number: nat): int {
    if Tracked(s, number) then BlockAt(s, number).pending else 0
  }

  predicate OldestDone(s: State) {
    Tracked(s, s.next) && BlockAt(s, s.next).pending <= 0
  }

  predicate Emits(s: State, who: Who) {
    if who.BySender? then s.sender.Emitting? else s.receiver.Committing?
  }

  ghost predicate Enabled(s: State, e: Event) {
    match e
    case TakeBlock(b) => s.todo == [] && b.withStatus.number == s.start + |s.blocks| && WellMapped(b)
    case DrainDone => s.todo != [] && s.todo[0].Drain? && s.available >= s.limit
    case Acquire => s.todo != [] && s.todo[0].Submit? && s.available >= 1
    case Write => s.todo != [] && s.todo[0].Enqueue?
    case ReadSegment => s.sender.Ready? && s.queue != []
    case Register => s.sender.Got?
    case Check => s.sender.Registered?
    case Send => s.sender.Sending?
    case Deliver(batch) => s.receiver.Idle? && Reports(s, batch)
    case Process =>
      && s.receiver.Processing? && s.receiver.todo != []
      && (s.receiver.todo[0].ours || !Held(s, s.receiver.todo[0].ref, s.receiver.todo[0].id))
    case Release => s.receiver.Processing? && s.receiver.todo == []
    case Feedback(ref) => s.receiver.Idle? && ref in s.sent
    case Lock(who) => s.lock.None? && if who.BySender? then s.sender.Checked? else s.receiver.Released?
    case Emit(who) => s.lock == Some(who) && Emits(s, who) && OldestDone(s)
    case Unlock(who) => s.lock == Some(who) && Emits(s, who) && !OldestDone(s)
  }

  /** The coordinator reports a final status at most once for each transaction it was sent; anything
      else in a batch is a leftover that names no transaction in flight when it is looked at. */
  ghost predicate Reports(s: State, batch: seq<Report>) {
    && (forall i, j :: 0 <= i < j < |batch| && batch[i].ours && batch[j].ours ==> batch[i].ref != batch[j].ref)
    && forall r :: r in batch && r.ours ==>
         r.ref in s.sent && r.status != Unspecified && (Tracked(s, r.ref.block) ==> Held(s, r.ref, r.id))
  }

  function OurRefs(batch: seq<Report>): set<Ref> {
    set r | r in batch && r.ours :: r.ref
  }

  /** What a batch says of our transactions. */
  function Said(batch: seq<Report>): map<Ref, Status> {
    if batch == [] then map[]
    else if batch[0].ours then Said(batch[1..])[batch[0].ref := batch[0].status]
    else Said(batch[1..])
  }

  function SetFinal(b: BlockStatus, num: nat, status: Status): BlockStatus
    requires num < |b.status|
  {
    b.(status := b.status[num := status], pending := b.pending - 1)
  }

  function Step(s: State, e: Event): State
    requires Enabled(s, e)
  {
    match e
    case TakeBlock(b) =>
      s.(todo := Actions(b), blocks := s.blocks + [b.withStatus], mapped := s.mapped + [b.withStatus])
    case DrainDone => s.(todo := s.todo[1..], barrier := None)
    case Acquire =>
      var seg := s.todo[0].seg;
      s.(available := s.available - |seg.refs|, unanswered := s.unanswered + seg.refs,
         todo := [Enqueue(seg)] + s.todo[1..],
         largest := if |seg.refs| > s.largest then |seg.refs| else s.largest,
         configs := if seg.kind.OfConfig? then s.configs + seg.refs else s.configs,
         snapshots := if seg.kind.OfSnapshot? then s.snapshots + seg.refs else s.snapshots,
         barrier := if seg.kind.Plain? then s.barrier else Some(seg))
    case Write => s.(queue := s.queue + [s.todo[0].seg], todo := s.todo[1..])
    case ReadSegment => s.(sender := Got(s.queue[0]), queue := s.queue[1..])
    case Register =>
      var number := s.sender.seg.block;
      if s.next <= number < s.next + s.count then s.(sender := Registered(s.sender.seg))
      else if number == s.next + s.count then s.(sender := Registered(s.sender.seg), count := s.count + 1)
      else s.(sender := Failed)
    case Check =>
      if PendingOf(s, s.sender.seg.block) == 0 then s.(sender := Checked(s.sender.seg))
      else s.(sender := Sending(s.sender.seg))
    case Send => s.(sender := Ready, sent := s.sent + s.sender.seg.refs)
    case Deliver(batch) =>
      s.(receiver := Processing(batch, 0), sent := s.sent - OurRefs(batch), reported := s.reported + Said(batch))
    case Process =>
      var r, rest, n := s.receiver.todo[0], s.receiver.todo[1..], s.receiver.processed;
      if !Held(s, r.ref, r.id) then s.(receiver := Processing(rest, n))
      else
        var b := BlockAt(s, r.ref.block);
        if r.ref.num >= |b.status| || b.status[r.ref.num] != Unspecified then s.(receiver := Broken)
        else s.(receiver := Processing(rest, n + 1), unanswered := s.unanswered - {r.ref},
                blocks := s.blocks[r.ref.block - s.start := SetFinal(b, r.ref.num, r.status)])
    case Release => s.(available := s.available + s.receiver.processed, receiver := Released)
    case Feedback(ref) =>
      if !Tracked(s, ref.block) then s.(receiver := Ended)
      else s.(available := s.available + 1, unanswered := s.unanswered - {ref}, sent := s.sent - {ref},
              receiver := Ended)
    case Lock(who) =>
      if who.BySender? then s.(lock := Some(who), sender := Emitting(s.sender.seg))
      else s.(lock := Some(who), receiver := Committing)
    case Emit(who) => s.(emitted := s.emitted + [BlockAt(s, s.next)], next := s.next + 1, count := s.count - 1)
    case Unlock(who) =>
      if who.BySender? then s.(lock := None, sender := Sending(s.sender.seg)) else s.(lock := None, receiver := Idle)
  }

  ghost predicate Init(s: State) {
    && s.limit >= 1
    && s == State(s.start, s.limit, s.limit, [], [], Ready, Idle, None,
                  [], s.start, 0, [], {}, {}, 0, {}, {}, None, [], map[])
  }

  // ---------------------------------------------------------------------
  // Segments on their way, oldest first.

  function Segs(todo: seq<Action>): seq<Segment> {
    if todo == [] then [] else (if todo[0].Drain? then [] else [todo[0].seg]) + Segs(todo[1..])
  }

  function SenderSegs(sender: Sender): seq<Segment> {
    if sender.Ready? || sender.Failed? then [] else [sender.seg]
  }

  /** Every segment not sent yet; those from Holding(s) on have no slots yet. */
  function Unsent(s: State): seq<Segment> {
    SenderSegs(s.sender) + s.queue + Segs(s.todo)
  }

  function Holding(s: State): nat {
    |SenderSegs(s.sender)| + |s.queue| + if s.todo != [] && s.todo[0].Enqueue? then 1 else 0
  }

  // ---------------------------------------------------------------------
  // From mapping to submission.

  function IdsOf(parsed: seq<Parsed>): seq<TxId> {
    seq(|parsed|, i requires 0 <= i < |parsed| => if parsed[i].Unprocessable? then "" else parsed[i].id)
  }

  function RejectedNums(rejected: seq<Rejection>): set<nat> {
    set r | r in rejected :: r.txNum
  }

  function ToRelay(number: nat, parsed: seq<Parsed>, m: Mapped): MappedBlock {
    MappedBlock(BlockStatus(number, IdsOf(parsed), m.txStatus, m.pendingCount),
                (set n | n in m.txs) + RejectedNums(m.rejected), m.snapshot, m.isConfig)
  }

  /** A block that maps is what the relay takes in. */
  lemma MappingIsWellMapped(number: nat, ids: set<TxId>, parsed: seq<Parsed>, m: Mapped)
    requires Folded(ids, parsed, |parsed|, m)
    requires forall i :: 0 <= i < |parsed| ==> !FateOf(ids, parsed, i).FailsBlock?
    ensures WellMapped(ToRelay(number, parsed, m))
    ensures var block := ToRelay(number, parsed, m);
            && block.withStatus.number == number && |block.withStatus.ids| == |parsed|
            && (forall i :: 0 <= i < |parsed| ==> !parsed[i].Unprocessable? && block.withStatus.ids[i] == parsed[i].id)
            && (forall i :: 0 <= i < |parsed| ==>
                  (i in block.txs <==> i in m.txs || exists r :: r in m.rejected && r.txNum == i))
            && (block.isConfig <==> exists i :: 0 <= i < |parsed| && parsed[i].WellFormed? && parsed[i].kind == Config)
  {
    forall i | 0 <= i < |parsed| ensures !parsed[i].Unprocessable? { assert !FateOf(ids, parsed, i).FailsBlock?; }
    var b := ToRelay(number, parsed, m);
    forall n: nat ensures n < |parsed| && m.txStatus[n] == Unspecified <==> n in b.txs || b.snapshot == Some(n) {
      if n < |parsed| {
        assert Shows(m, n, FateOf(ids, parsed, n));
        if n in RejectedNums(m.rejected) {
          var r :| r in m.rejected && r.txNum == n;
          assert r == Rejection(n, r.status);
        }
      }
    }
    if m.snapshot.Some? { assert Shows(m, m.snapshot.value, FateOf(ids, parsed, m.snapshot.value)); }
    if m.isConfig {
      var k :| 0 <= k < |parsed| && parsed[k].WellFormed? && parsed[k].kind == Config;
      assert Shows(m, k, FateOf(ids, parsed, k));
    }
  }

  predicate IsSubmitted(b: MappedBlock, n: nat) {
    exists a :: a in Actions(b) && a.Submit? && Ref(b.withStatus.number, n) in a.seg.refs
  }

  /** Every pending transaction of a block is submitted, unless the block holds both a config and an
      accepted snapshot transaction: then the snapshot transaction never is. */
  lemma EveryPendingSubmittedIff(b: MappedBlock)
    requires WellMapped(b)
    ensures (forall n: nat :: n < |b.withStatus.status| && b.withStatus.status[n] == Unspecified ==> IsSubmitted(b, n))
            <==> !(b.isConfig && b.snapshot.Some?)
  {
    var number := b.withStatus.number;
    var all := Submit(Segment(number, Refs(number, b.txs), if b.isConfig then OfConfig else Plain));
    if b.isConfig && b.snapshot.Some? {
      assert !IsSubmitted(b, b.snapshot.value);
    } else {
      forall n: nat | n in b.txs || b.snapshot == Some(n) ensures IsSubmitted(b, n) {
        if n in b.txs {
          assert all in Actions(b) && Ref(number, n) in all.seg.refs;
        } else {
          assert Submit(Segment(number, {Ref(number, n)}, OfSnapshot)) in Actions(b);
        }
      }
    }
  }

  function ConfigThenSnapshot(a: TxId, b: TxId): seq<Parsed> {
    [WellFormed(a, Config), WellFormed(b, Snapshot)]
  }

  lemma NewOnesPass(ids: set<TxId>, a: TxId, b: TxId)
    requires a != b && a !in ids && b !in ids
    ensures var parsed := ConfigThenSnapshot(a, b);
            FateOf(ids, parsed, 0).Submitted? && FateOf(ids, parsed, 1).AsSnapshot?
  {
    var parsed := ConfigThenSnapshot(a, b);
    assert !Taken(ids, parsed, 0, a) && !Taken(ids, parsed, 1, b) && !SnapshotBefore(ids, parsed, 1);
  }

  /** However a new config transaction and a new snapshot transaction are mapped into one block, the relay
      takes the block in, and the snapshot transaction stays pending without being submitted. */
  lemma SnapshotStranded(number: nat, ids: set<TxId>, a: TxId, b: TxId, m: Mapped)
    requires a != b && a !in ids && b !in ids && Folded(ids, ConfigThenSnapshot(a, b), 2, m)
    ensures var block := ToRelay(number, ConfigThenSnapshot(a, b), m);
            && WellMapped(block) && block.isConfig && block.snapshot == Some(1)
            && block.withStatus.status[1] == Unspecified && !IsSubmitted(block, 1)
  {
    var parsed := ConfigThenSnapshot(a, b);
    NewOnesPass(ids, a, b);
    MappingIsWellMapped(number, ids, parsed, m);
    assert Shows(m, 1, FateOf(ids, parsed, 1));
    assert parsed[0].kind == Config;
  }

  /** And mapping lets such a block through. */
  lemma ConfigAndSnapshotMaps(number: nat, ids: set<TxId>, a: TxId, b: TxId) returns (m: Mapped)
    requires a != b && a !in ids && b !in ids
    ensures var parsed, block := ConfigThenSnapshot(a, b), ToRelay(number, ConfigThenSnapshot(a, b), m);
            && (forall i :: 0 <= i < 2 ==> !FateOf(ids, parsed, i).FailsBlock?) && Folded(ids, parsed, 2, m)
            && WellMapped(block) && block.isConfig && block.snapshot == Some(1)
            && block.withStatus.status[1] == Unspecified && !IsSubmitted(block, 1)
  {
    var parsed := ConfigThenSnapshot(a, b);
    NewOnesPass(ids, a, b);
    StartsFolded(ids, parsed);
    AppliedFolds(ids, parsed, 0, NothingMapped(2, ids));
    var first := Applied(NothingMapped(2, ids), 0, parsed[0]).value;
    AppliedFolds(ids, parsed, 1, first);
    m := Applied(first, 1, parsed[1]).value;
    SnapshotStranded(number, ids, a, b, m);
  }

  // ---------------------------------------------------------------------
  // The emission loop on its own.

  /** Takes out exactly the leading blocks without a pending transaction, oldest first. */
  method ProcessCommittedBlocksInOrder(inFlight: InFlightBlocks<BlockStatus>) returns (emitted: seq<BlockStatus>)
    requires inFlight.Valid()
    modifies inFlight, inFlight.buf
    ensures inFlight.Valid() && old(inFlight.Window()) == emitted + inFlight.Window()
    ensures inFlight.nextBlockNum == old(inFlight.nextBlockNum) + |emitted|
    ensures forall b :: b in emitted ==> b.pending <= 0
    ensures inFlight.Window() == [] || inFlight.Window()[0].pending > 0
  {
    ghost var first, window, left := inFlight.nextBlockNum, inFlight.Window(), inFlight.Window();
    emitted := [];
    while true
      invariant inFlight.Valid() && inFlight.buf == old(inFlight.buf) && left == inFlight.Window()
      invariant window == emitted + left && inFlight.nextBlockNum == first + |emitted|
      invariant forall b :: b in emitted ==> b.pending <= 0
      decreases |left|
    {
      ghost var was := left;
      var blk := TakeCommittedBlock(inFlight);
      left := inFlight.Window();
      if blk.None? { return; }
      MovesOver(emitted, was, blk.value, left);
      emitted := emitted + [blk.value];
    }
  }

  lemma MovesOver(emitted: seq<BlockStatus>, was: seq<BlockStatus>, b: BlockStatus, left: seq<BlockStatus>)
    requires was == [b] + left
    ensures emitted + was == (emitted + [b]) + left && |left| < |was|
  {
  }

  method TakeCommittedBlock(inFlight: InFlightBlocks<BlockStatus>) returns (blk: Option<BlockStatus>)
    requires inFlight.Valid()
    modifies inFlight`head, inFlight`count, inFlight`nextBlockNum, inFlight.buf
    ensures inFlight.Valid() && (blk.None? <==> old(inFlight.Window()) == [] || old(inFlight.Window())[0].pending > 0)
    ensures blk.None? ==>
              inFlight.Window() == old(inFlight.Window()) && inFlight.nextBlockNum == old(inFlight.nextBlockNum)
    ensures blk.Some? ==> old(inFlight.Window()) == [blk.value] + inFlight.Window() && blk.value.pending <= 0
    ensures blk.Some? ==> inFlight.nextBlockNum == old(inFlight.nextBlockNum) + 1
  {
    blk := inFlight.NextBlockToCommit();
    if blk.None? { return; }
    if blk.value.pending > 0 { return None; }
    inFlight.DropCommittedBlock();
  }
}
