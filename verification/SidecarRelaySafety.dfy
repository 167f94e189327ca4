/** What every session of the relay keeps. */
module RelaySafety {
  import opened Common
  import opened BlockMapping
  import opened RelaySteps

  function Unreleased(s: State): nat {
    if s.receiver.Processing? then s.receiver.processed else 0
  }

  function OurTodo(s: State): seq<Report> {
    if s.receiver.Processing? then s.receiver.todo else []
  }

  /** Free slots are what is left by unanswered transactions and results not given back yet. */
  ghost predicate SlotsInv(s: State) {
    && s.limit >= 1
    && s.available == s.limit - |s.unanswered| - Unreleased(s)
    && |s.unanswered| + Unreleased(s) <= s.limit - 1 + s.largest
  }

  // ---------------------------------------------------------------------
  // Blocks and statuses.

  ghost predicate Open(s: State, ref: Ref) {
    && s.start <= ref.block && ref.block - s.start < |s.blocks|
    && ref.num < |BlockAt(s, ref.block).status| && BlockAt(s, ref.block).status[ref.num] == Unspecified
  }

  predicate BlockOk(b: BlockStatus, number: nat) {
    b.number == number && |b.ids| == |b.status| && b.pending == Unset(b.status)
  }

  ghost predicate BlocksInv(s: State) {
    && (forall i :: 0 <= i < |s.blocks| ==> BlockOk(s.blocks[i], s.start + i))
    && s.start <= s.next && s.next + s.count <= s.start + |s.blocks|
    && (forall i :: 0 <= i < s.next - s.start ==> s.blocks[i].pending == 0)
    && s.emitted == s.blocks[..s.next - s.start]
  }

  /** A block with an open transaction was not committed. */
  lemma OpenIsAhead(s: State, ref: Ref)
    requires BlocksInv(s) && Open(s, ref)
    ensures ref.block >= s.next && BlockAt(s, ref.block).pending > 0
  {
    assert BlockOk(s.blocks[ref.block - s.start], ref.block);
    UnsetPositive(BlockAt(s, ref.block).status, ref.num);
  }

  // ---------------------------------------------------------------------
  // Where unanswered transactions are.

  ghost predicate Disjoint(segs: seq<Segment>) {
    forall i, j :: 0 <= i < j < |segs| ==> segs[i].refs !! segs[j].refs
  }

  /** A segment that has its slots and was not sent. */
  ghost predicate Carried(s: State, seg: Segment) {
    seg.refs <= s.unanswered && seg.refs !! s.sent && seg.refs !! OurRefs(OurTodo(s))
  }

  /** A segment that has no slots yet. */
  ghost predicate Coming(s: State, seg: Segment) {
    && seg.refs !! s.unanswered && seg.refs !! s.configs && seg.refs !! s.snapshots
    && forall r :: r in seg.refs ==> Open(s, r)
  }

  predicate OwnRefs(seg: Segment) {
    && (forall r :: r in seg.refs ==> r.block == seg.block)
    && (seg.kind.OfSnapshot? ==> |seg.refs| == 1)
  }

  ghost predicate SegsOk(s: State, segs: seq<Segment>, h: nat) {
    && Disjoint(segs) && h <= |segs|
    && (forall i :: 0 <= i < h ==> Carried(s, segs[i]))
    && (forall i :: h <= i < |segs| ==> Coming(s, segs[i]))
    && (forall i :: 0 <= i < |segs| ==> OwnRefs(segs[i]))
  }

  ghost predicate AllKnown(s: State) {
    forall r :: r in s.unanswered || r in s.configs || r in s.snapshots ==> r.block < s.start + |s.blocks|
  }

  ghost predicate ReportsOk(s: State, todo: seq<Report>) {
    && (forall i, j :: 0 <= i < j < |todo| && todo[i].ours && todo[j].ours ==> todo[i].ref != todo[j].ref)
    && forall r :: r in todo && r.ours ==>
         && r.ref in s.unanswered && r.ref !in s.sent && r.status != Unspecified
         && r.ref.block < s.next + s.count && NamesId(s, r)
  }

  predicate NamesId(s: State, r: Report) {
    s.start <= r.ref.block && r.ref.block - s.start < |s.blocks|
    && r.ref.num < |BlockAt(s, r.ref.block).ids| && BlockAt(s, r.ref.block).ids[r.ref.num] == r.id
  }

  ghost predicate PlacesInv(s: State) {
    && SegsOk(s, Unsent(s), Holding(s)) && AllKnown(s) && ReportsOk(s, OurTodo(s))
    && s.sent <= s.unanswered && (forall r :: r in s.unanswered ==> Open(s, r))
    && (forall r :: r in s.sent ==> r.block < s.next + s.count)
  }

  // ---------------------------------------------------------------------
  // Registration order.

  /** The segments to come register blocks reg, reg + 1, ... up to end, where a block's second segment
      finds it registered. */
  ghost predicate InOrder(segs: seq<Segment>, reg: nat, end: nat) {
    if segs == [] then reg == end
    else if segs[0].block == reg then InOrder(segs[1..], reg + 1, end)
    else segs[0].block + 1 == reg && segs[0].refs != {} && InOrder(segs[1..], reg, end)
  }

  function Unregistered(s: State): seq<Segment> {
    (if s.sender.Got? then [s.sender.seg] else []) + s.queue + Segs(s.todo)
  }

  ghost predicate OrderInv(s: State) {
    && InOrder(Unregistered(s), s.next + s.count, s.start + |s.blocks|)
    && !s.sender.Failed? && !s.receiver.Broken?
    && (SenderSegs(s.sender) != [] && !s.sender.Got? ==> s.sender.seg.block < s.next + s.count)
  }

  lemma {:induction false} InOrderAppend(segs: seq<Segment>, reg: nat, end: nat, more: seq<Segment>, end': nat)
    requires InOrder(segs, reg, end) && InOrder(more, end, end')
    ensures InOrder(segs + more, reg, end')
  {
    if segs == [] {
      assert segs + more == more;
    } else {
      assert (segs + more)[1..] == segs[1..] + more;
      InOrderAppend(segs[1..], if segs[0].block == reg then reg + 1 else reg, end, more, end');
    }
  }

  // ---------------------------------------------------------------------
  // Barriers.

  /** A barrier is submitted only when nothing is unanswered, and followed by a drain. */
  predicate Shape(todo: seq<Action>, clear: bool) {
    todo == [] ||
    match todo[0]
    case Drain => Shape(todo[1..], true)
    case Submit(seg) => (!seg.kind.Plain? ==> clear && |todo| > 1 && todo[1].Drain?) && Shape(todo[1..], false)
    case Enqueue(seg) => (!seg.kind.Plain? ==> |todo| > 1 && todo[1].Drain?) && Shape(todo[1..], false)
  }

  predicate OnlyHeadEnqueues(todo: seq<Action>) {
    forall i :: 0 < i < |todo| ==> !todo[i].Enqueue?
  }

  ghost predicate BarrierInv(s: State) {
    && Shape(s.todo, s.unanswered == {}) && OnlyHeadEnqueues(s.todo)
    && (s.unanswered !! s.configs || (s.barrier.Some? && s.barrier.value.kind.OfConfig?))
    && (s.unanswered !! s.snapshots || (s.barrier.Some? && s.barrier.value.kind.OfSnapshot?))
    && (s.barrier.Some? ==>
          && s.unanswered <= s.barrier.value.refs && OwnRefs(s.barrier.value)
          && s.todo != [] && (s.todo[0].Drain? || (s.todo[0].Enqueue? && |s.todo| > 1 && s.todo[1].Drain?)))
  }

  // ---------------------------------------------------------------------
  // Nobody forgets a finished block.

  ghost predicate WatchedInv(s: State) {
    && (OldestDone(s) && s.receiver.Idle? ==>
          s.sender.Emitting? || s.sender.Checked? || (s.sender.Registered? && s.sender.seg.block == s.next))
    && (s.sender.Emitting? <==> s.lock == Some(BySender)) && (s.receiver.Committing? <==> s.lock == Some(ByReceiver))
  }

  ghost predicate Inv(s: State) {
    SlotsInv(s) && BlocksInv(s) && PlacesInv(s) && OrderInv(s) && BarrierInv(s) && WatchedInv(s) && SourcesInv(s)
  }

  // ---------------------------------------------------------------------
  // Slots.

  lemma HeadIsComing(s: State)
    requires PlacesInv(s) && s.todo != [] && s.todo[0].Submit?
    ensures Coming(s, s.todo[0].seg) && OwnRefs(s.todo[0].seg)
    ensures Holding(s) < |Unsent(s)| && Unsent(s)[Holding(s)] == s.todo[0].seg
  {
    assert Segs(s.todo)[0] == s.todo[0].seg;
    assert Unsent(s)[Holding(s)] == s.todo[0].seg;
  }

  lemma SlotsAcquire(s: State)
    requires SlotsInv(s) && Enabled(s, Acquire) && s.todo[0].seg.refs !! s.unanswered
    ensures SlotsInv(Step(s, Acquire))
  {
  }

  lemma SlotsProcess(s: State)
    requires SlotsInv(s) && BlocksInv(s) && PlacesInv(s) && Enabled(s, Process)
    ensures SlotsInv(Step(s, Process))
  {
    ProcessStep(s);
  }

  lemma SlotsKept(s: State, e: Event)
    requires SlotsInv(s) && Enabled(s, e) && !e.Acquire? && !e.Process? && s.sent <= s.unanswered
    ensures SlotsInv(Step(s, e))
  {
  }

  /** What our own reports find when they are looked at. */
  lemma ProcessStep(s: State)
    requires BlocksInv(s) && PlacesInv(s) && Enabled(s, Process)
    ensures var r := s.receiver.todo[0];
            if r.ours then Held(s, r.ref, r.id) && Open(s, r.ref) && r.ref in s.unanswered && r.status != Unspecified
            else !Held(s, r.ref, r.id)
  {
    var r := s.receiver.todo[0];
    assert r in s.receiver.todo;
    if r.ours {
      OpenIsAhead(s, r.ref);
    }
  }

  // ---------------------------------------------------------------------
  // Blocks.

  lemma {:induction false} InOrderBound(segs: seq<Segment>, reg: nat, end: nat)
    requires InOrder(segs, reg, end)
    ensures reg <= end
  {
    if segs != [] { InOrderBound(segs[1..], if segs[0].block == reg then reg + 1 else reg, end); }
  }

  /** A segment that is registered finds its block in the window, or extends the window by it. */
  lemma RegisterStep(s: State)
    requires BlocksInv(s) && PlacesInv(s) && OrderInv(s) && s.sender.Got?
    ensures s.next <= s.sender.seg.block <= s.next + s.count
    ensures s.sender.seg.block == s.next + s.count ==> s.next + s.count < s.start + |s.blocks|
  {
    var seg, segs := s.sender.seg, Unregistered(s);
    assert segs[0] == seg && Unsent(s)[0] == seg;
    if seg.block == s.next + s.count {
      InOrderBound(segs[1..], s.next + s.count + 1, s.start + |s.blocks|);
    } else {
      var r :| r in seg.refs;
      assert Carried(s, seg) && OwnRefs(seg);
      OpenIsAhead(s, r);
    }
  }

  lemma BlocksRegister(s: State)
    requires BlocksInv(s) && PlacesInv(s) && OrderInv(s) && s.sender.Got?
    ensures BlocksInv(Step(s, Register))
  {
    RegisterStep(s);
  }

  lemma BlocksProcess(s: State)
    requires BlocksInv(s) && PlacesInv(s) && Enabled(s, Process)
    ensures BlocksInv(Step(s, Process))
  {
    ProcessStep(s);
    var r := s.receiver.todo[0];
    if r.ours { UnsetUpdate(BlockAt(s, r.ref.block).status, r.ref.num, r.status); }
  }

  lemma BlocksEmit(s: State, who: Who)
    requires BlocksInv(s) && Enabled(s, Emit(who))
    ensures BlocksInv(Step(s, Emit(who)))
  {
    assert BlockOk(s.blocks[s.next - s.start], s.next);
  }

  lemma BlocksTakeBlock(s: State, b: MappedBlock)
    requires BlocksInv(s) && Enabled(s, TakeBlock(b))
    ensures BlocksInv(Step(s, TakeBlock(b)))
  {
  }

  lemma BlocksSame(s: State, s': State)
    requires BlocksInv(s) && s'.blocks == s.blocks && s'.start == s.start && s'.next == s.next && s'.count == s.count
    requires s'.emitted == s.emitted
    ensures BlocksInv(s')
  {
  }

  lemma BlocksKept(s: State, e: Event)
    requires BlocksInv(s) && Enabled(s, e) && !e.Register? && !e.Process?
    ensures BlocksInv(Step(s, e))
  {
    if e.Emit? {
      BlocksEmit(s, e.who);
    } else if e.TakeBlock? {
      BlocksTakeBlock(s, e.b);
    } else {
      BlocksSame(s, Step(s, e));
    }
  }

  // ---------------------------------------------------------------------
  // Places.

  /** Nothing that decides where transactions are has changed. */
  ghost predicate SamePlaces(s: State, s': State) {
    && s'.unanswered == s.unanswered && s'.sent == s.sent && s'.blocks == s.blocks && s'.start == s.start
    && s'.configs == s.configs && s'.snapshots == s.snapshots && OurTodo(s') == OurTodo(s)
    && s'.next + s'.count >= s.next + s.count
    && Unsent(s') == Unsent(s) && Holding(s') == Holding(s)
  }

  lemma PlacesSame(s: State, s': State)
    requires PlacesInv(s) && SamePlaces(s, s')
    ensures PlacesInv(s')
  {
    assert forall r :: Open(s', r) == Open(s, r);
    assert forall seg :: Carried(s', seg) == Carried(s, seg);
    assert forall seg :: Coming(s, seg) ==> Coming(s', seg);
  }

  lemma QuietSame(s: State, e: Event)
    requires Enabled(s, e) && OnlyHeadEnqueues(s.todo)
    requires e.DrainDone? || e.Write? || e.ReadSegment? || e.Check? || e.Release? || e.Lock? || e.Unlock? || e.Emit?
    ensures SamePlaces(s, Step(s, e))
  {
    if e.ReadSegment? { ReadShifts(s); }
    if e.Write? { WriteShifts(s); }
  }

  lemma ReadShifts(s: State)
    requires Enabled(s, ReadSegment)
    ensures Unsent(Step(s, ReadSegment)) == Unsent(s) && Holding(Step(s, ReadSegment)) == Holding(s)
  {
    assert s.queue == [s.queue[0]] + s.queue[1..];
  }

  lemma WriteShifts(s: State)
    requires Enabled(s, Write) && OnlyHeadEnqueues(s.todo)
    ensures Unsent(Step(s, Write)) == Unsent(s) && Holding(Step(s, Write)) == Holding(s)
  {
    assert s.todo[1..] == [] || !s.todo[1..][0].Enqueue?;
  }

  lemma SegsAcquire(s: State, s': State, segs: seq<Segment>, h: nat)
    requires SegsOk(s, segs, h) && h < |segs| && s'.blocks == s.blocks && s'.start == s.start
    requires s'.unanswered == s.unanswered + segs[h].refs && s'.sent == s.sent && OurTodo(s') == OurTodo(s)
    requires s'.configs <= s.configs + segs[h].refs && s'.snapshots <= s.snapshots + segs[h].refs
    requires segs[h].refs !! s.sent && segs[h].refs !! OurRefs(OurTodo(s))
    ensures SegsOk(s', segs, h + 1)
  {
    assert forall r :: Open(s', r) == Open(s, r);
    forall i | h + 1 <= i < |segs| ensures Coming(s', segs[i]) {
      assert segs[h].refs !! segs[i].refs;
      assert Coming(s, segs[i]);
    }
    assert forall i :: 0 <= i < h ==> Carried(s', segs[i]);
  }

  lemma AcquireShifts(s: State)
    requires Enabled(s, Acquire)
    ensures Unsent(Step(s, Acquire)) == Unsent(s) && Holding(Step(s, Acquire)) == Holding(s) + 1
  {
    assert Step(s, Acquire).todo[1..] == s.todo[1..];
  }

  lemma PlacesAcquire(s: State)
    requires PlacesInv(s) && Enabled(s, Acquire)
    ensures PlacesInv(Step(s, Acquire))
  {
    HeadIsComing(s);
    var s', seg := Step(s, Acquire), s.todo[0].seg;
    ComingIsNew(s, seg);
    AcquireShifts(s);
    SegsAcquire(s, s', Unsent(s), Holding(s));
    RestAcquire(s, s', seg);
  }

  lemma RestAcquire(s: State, s': State, seg: Segment)
    requires AllKnown(s) && ReportsOk(s, OurTodo(s)) && s.sent <= s.unanswered && Coming(s, seg) && seg.refs !! s.sent
    requires (forall r :: r in s.unanswered ==> Open(s, r)) && (forall r :: r in s.sent ==> r.block < s.next + s.count)
    requires s'.blocks == s.blocks && s'.start == s.start && s'.sent == s.sent && OurTodo(s') == OurTodo(s)
    requires s'.next == s.next && s'.count == s.count && s'.unanswered == s.unanswered + seg.refs
    requires s'.configs <= s.configs + seg.refs && s'.snapshots <= s.snapshots + seg.refs
    ensures AllKnown(s') && ReportsOk(s', OurTodo(s')) && s'.sent <= s'.unanswered
    ensures (forall r :: r in s'.unanswered ==> Open(s', r))
    ensures (forall r :: r in s'.sent ==> r.block < s'.next + s'.count)
  {
    assert forall r :: Open(s', r) == Open(s, r);
    forall r | r in s'.unanswered || r in s'.configs || r in s'.snapshots ensures r.block < s.start + |s.blocks| {
      if r in seg.refs { assert Open(s, r); }
    }
  }

  lemma ComingIsNew(s: State, seg: Segment)
    requires PlacesInv(s) && Coming(s, seg)
    ensures seg.refs !! s.sent && seg.refs !! OurRefs(OurTodo(s))
  {
  }

  lemma PlacesRegister(s: State)
    requires BlocksInv(s) && PlacesInv(s) && OrderInv(s) && s.sender.Got?
    ensures PlacesInv(Step(s, Register))
  {
    RegisterStep(s);
    PlacesSame(s, Step(s, Register));
  }

  lemma SegsSend(s: State, s': State, segs: seq<Segment>, h: nat)
    requires SegsOk(s, segs, h) && 0 < h && s'.blocks == s.blocks && s'.start == s.start
    requires s'.unanswered == s.unanswered && s'.sent == s.sent + segs[0].refs && OurTodo(s') == OurTodo(s)
    requires s'.configs == s.configs && s'.snapshots == s.snapshots
    ensures SegsOk(s', segs[1..], h - 1)
  {
    assert forall r :: Open(s', r) == Open(s, r);
    forall i | 0 <= i < h - 1 ensures Carried(s', segs[1..][i]) {
      assert segs[0].refs !! segs[i + 1].refs && Carried(s, segs[i + 1]);
    }
    forall i | h - 1 <= i < |segs[1..]| ensures Coming(s', segs[1..][i]) {
      assert Coming(s, segs[i + 1]);
    }
  }

  lemma PlacesSend(s: State)
    requires PlacesInv(s) && OrderInv(s) && Enabled(s, Send)
    ensures PlacesInv(Step(s, Send))
  {
    var s', segs := Step(s, Send), Unsent(s);
    SendShifts(s);
    assert Carried(s, segs[0]) && OwnRefs(segs[0]);
    SegsSend(s, s', segs, Holding(s));
    RestSend(s, s', segs[0]);
  }

  lemma SendShifts(s: State)
    requires Enabled(s, Send)
    ensures Unsent(s) != [] && Unsent(s)[0] == s.sender.seg && Holding(s) > 0
    ensures Unsent(Step(s, Send)) == Unsent(s)[1..] && Holding(Step(s, Send)) == Holding(s) - 1
  {
  }

  lemma RestSend(s: State, s': State, seg: Segment)
    requires AllKnown(s) && ReportsOk(s, OurTodo(s)) && s.sent <= s.unanswered && Carried(s, seg) && OwnRefs(seg)
    requires (forall r :: r in s.unanswered ==> Open(s, r)) && (forall r :: r in s.sent ==> r.block < s.next + s.count)
    requires s'.blocks == s.blocks && s'.start == s.start && s'.sent == s.sent + seg.refs && OurTodo(s') == OurTodo(s)
    requires s'.next == s.next && s'.count == s.count && s'.unanswered == s.unanswered && seg.block < s.next + s.count
    requires s'.configs == s.configs && s'.snapshots == s.snapshots
    ensures AllKnown(s') && ReportsOk(s', OurTodo(s')) && s'.sent <= s'.unanswered
    ensures (forall r :: r in s'.unanswered ==> Open(s', r))
    ensures (forall r :: r in s'.sent ==> r.block < s'.next + s'.count)
  {
    assert forall r :: Open(s', r) == Open(s, r);
    forall r | r in OurTodo(s') && r.ours ensures r.ref !in s'.sent { assert r.ref in OurRefs(OurTodo(s)); }
  }

  lemma PlacesDeliver(s: State, batch: seq<Report>)
    requires BlocksInv(s) && PlacesInv(s) && Enabled(s, Deliver(batch))
    ensures PlacesInv(Step(s, Deliver(batch)))
  {
    var s' := Step(s, Deliver(batch));
    assert Unsent(s') == Unsent(s) && Holding(s') == Holding(s);
    assert forall r :: Open(s', r) == Open(s, r);
    assert OurRefs(batch) <= s.sent;
    assert forall seg :: Carried(s, seg) ==> Carried(s', seg);
    assert forall seg :: Coming(s, seg) ==> Coming(s', seg);
    forall r | r in batch && r.ours ensures NamesId(s', r) && r.ref !in s'.sent {
      OpenIsAhead(s, r.ref);
      assert r.ref in OurRefs(batch);
    }
  }

  /** The state after ref has its result: blocks keep their IDs and every other status. */
  ghost predicate Answers(s: State, s': State, ref: Ref) {
    && s'.unanswered == s.unanswered - {ref} && s'.start == s.start && s'.next == s.next && s'.count == s.count
    && s'.configs == s.configs && s'.snapshots == s.snapshots && |s'.blocks| == |s.blocks|
    && (forall i :: 0 <= i < |s.blocks| ==> s'.blocks[i].ids == s.blocks[i].ids)
    && (forall r :: r != ref && Open(s, r) ==> Open(s', r))
  }

  lemma PlacesAnswer(s: State, s': State, ref: Ref)
    requires PlacesInv(s) && Answers(s, s', ref) && ref in s.unanswered
    requires Unsent(s') == Unsent(s) && Holding(s') == Holding(s)
    requires ref in s.sent || ref in OurRefs(OurTodo(s))
    requires s'.sent == s.sent - {ref} && ReportsOk(s', OurTodo(s')) && OurRefs(OurTodo(s')) <= OurRefs(OurTodo(s))
    ensures PlacesInv(s')
  {
    var segs, h := Unsent(s), Holding(s);
    forall i | 0 <= i < h ensures Carried(s', segs[i]) { assert Carried(s, segs[i]); }
    forall i | h <= i < |segs| ensures Coming(s', segs[i]) { assert Coming(s, segs[i]); }
  }

  lemma ProcessAnswers(s: State)
    requires BlocksInv(s) && PlacesInv(s) && Enabled(s, Process) && s.receiver.todo[0].ours
    ensures Answers(s, Step(s, Process), s.receiver.todo[0].ref)
  {
    ProcessStep(s);
  }

  lemma PlacesProcess(s: State)
    requires BlocksInv(s) && PlacesInv(s) && Enabled(s, Process)
    ensures PlacesInv(Step(s, Process))
  {
    ProcessStep(s);
    var s', todo, r := Step(s, Process), s.receiver.todo, s.receiver.todo[0];
    assert OurTodo(s') == todo[1..] && forall x :: x in todo[1..] ==> x in todo;
    assert Unsent(s') == Unsent(s) && Holding(s') == Holding(s);
    if r.ours {
      ProcessAnswers(s);
      RestOfReports(s, s', todo);
      PlacesAnswer(s, s', r.ref);
    } else {
      PlacesSkip(s, s');
    }
  }

  lemma RestOfReports(s: State, s': State, todo: seq<Report>)
    requires todo != [] && todo[0].ours && ReportsOk(s, todo) && Answers(s, s', todo[0].ref) && s'.sent == s.sent
    ensures ReportsOk(s', todo[1..]) && OurRefs(todo[1..]) <= OurRefs(todo) && s.sent - {todo[0].ref} == s.sent
  {
    assert todo[0] in todo && todo[0].ref !in s.sent;
    forall r | r in todo[1..] && r.ours ensures r in todo && r.ref != todo[0].ref {
      var i :| 0 <= i < |todo[1..]| && todo[1..][i] == r;
      assert todo[i + 1] == r;
    }
  }

  lemma PlacesSkip(s: State, s': State)
    requires PlacesInv(s) && s.receiver.Processing? && s.receiver.todo != [] && !s.receiver.todo[0].ours
    requires s' == s.(receiver := Processing(s.receiver.todo[1..], s.receiver.processed))
    ensures PlacesInv(s')
  {
    assert Unsent(s') == Unsent(s) && Holding(s') == Holding(s);
    assert OurRefs(OurTodo(s')) <= OurRefs(OurTodo(s));
    assert forall r :: Open(s', r) == Open(s, r);
    assert forall seg :: Carried(s, seg) ==> Carried(s', seg);
    assert forall seg :: Coming(s, seg) ==> Coming(s', seg);
  }

  lemma PlacesFeedback(s: State, ref: Ref)
    requires BlocksInv(s) && PlacesInv(s) && Enabled(s, Feedback(ref))
    ensures PlacesInv(Step(s, Feedback(ref)))
  {
    OpenIsAhead(s, ref);
    PlacesAnswer(s, Step(s, Feedback(ref)), ref);
  }

  // ---------------------------------------------------------------------
  // New blocks.

  lemma SegsOfActions(b: MappedBlock)
    ensures var n, segs := b.withStatus.number, Segs(Actions(b));
            && (b.isConfig ==> segs == [Segment(n, Refs(n, b.txs), OfConfig)])
            && (!b.isConfig && b.snapshot.None? ==> segs == [Segment(n, Refs(n, b.txs), Plain)])
            && (!b.isConfig && b.snapshot.Some? ==>
                  segs == (if b.txs != {} then [Segment(n, Refs(n, b.txs), Plain)] else [])
                          + [Segment(n, {Ref(n, b.snapshot.value)}, OfSnapshot)])
  {
    var n := b.withStatus.number;
    BarrierSegs(Segment(n, Refs(n, b.txs), OfConfig));
    if b.snapshot.Some? {
      var tail := [Drain, Submit(Segment(n, {Ref(n, b.snapshot.value)}, OfSnapshot)), Drain];
      BarrierSegs(Segment(n, {Ref(n, b.snapshot.value)}, OfSnapshot));
      assert ([Submit(Segment(n, Refs(n, b.txs), Plain))] + tail)[1..] == tail;
      assert [] + tail == tail;
    }
  }

  lemma BarrierSegs(seg: Segment)
    ensures Segs([Drain, Submit(seg), Drain]) == [seg]
  {
    assert [Drain, Submit(seg), Drain][1..] == [Submit(seg), Drain];
    assert [Submit(seg), Drain][1..] == [Drain];
    assert Segs([Drain]) == [] + Segs([]);
  }

  lemma NewSegs(s: State, s': State, b: MappedBlock)
    requires s'.start == s.start && s'.blocks == s.blocks + [b.withStatus]
    requires b.withStatus.number == s.start + |s.blocks| && WellMapped(b)
    requires s'.unanswered == s.unanswered && s'.configs == s.configs && s'.snapshots == s.snapshots && AllKnown(s)
    ensures Disjoint(Segs(Actions(b)))
    ensures forall i :: 0 <= i < |Segs(Actions(b))| ==> Coming(s', Segs(Actions(b))[i]) && OwnRefs(Segs(Actions(b))[i])
    ensures forall i :: 0 <= i < |Segs(Actions(b))| ==> Segs(Actions(b))[i].block == s.start + |s.blocks|
  {
    SegsOfActions(b);
    forall n | n in b.txs || b.snapshot == Some(n) ensures Open(s', Ref(b.withStatus.number, n)) {
      NewIsOpen(s, s', b, n);
    }
  }

  lemma NewIsOpen(s: State, s': State, b: MappedBlock, n: nat)
    requires s'.start == s.start && s'.blocks == s.blocks + [b.withStatus]
    requires b.withStatus.number == s.start + |s.blocks| && WellMapped(b)
    requires n in b.txs || b.snapshot == Some(n)
    ensures Open(s', Ref(b.withStatus.number, n))
  {
    assert BlockAt(s', b.withStatus.number) == b.withStatus;
  }

  lemma SegsMore(s: State, s': State, segs: seq<Segment>, more: seq<Segment>)
    requires SegsOk(s, segs, |segs|) && AllKnown(s) && Disjoint(more)
    requires s'.unanswered == s.unanswered && s'.sent == s.sent && OurTodo(s') == OurTodo(s)
    requires forall i :: 0 <= i < |more| ==>
               Coming(s', more[i]) && OwnRefs(more[i]) && more[i].block == s.start + |s.blocks|
    ensures SegsOk(s', segs + more, |segs|)
  {
    var all := segs + more;
    forall i, j | 0 <= i < j < |all| ensures all[i].refs !! all[j].refs {
      if i < |segs| <= j { assert Carried(s, segs[i]) && OwnRefs(all[j]); }
    }
    assert forall i :: 0 <= i < |segs| ==> Carried(s, segs[i]) && Carried(s', all[i]);
  }

  lemma PlacesTakeBlock(s: State, b: MappedBlock)
    requires PlacesInv(s) && OrderInv(s) && Enabled(s, TakeBlock(b))
    ensures PlacesInv(Step(s, TakeBlock(b)))
  {
    var s', more := Step(s, TakeBlock(b)), Segs(Actions(b));
    NewSegs(s, s', b);
    assert Holding(s) == |Unsent(s)|;
    assert Unsent(s') == Unsent(s) + more && Holding(s') == Holding(s);
    SegsMore(s, s', Unsent(s), more);
    RestTakeBlock(s, s');
  }

  lemma RestTakeBlock(s: State, s': State)
    requires AllKnown(s) && ReportsOk(s, OurTodo(s)) && (forall r :: r in s.unanswered ==> Open(s, r))
    requires s'.start == s.start && |s'.blocks| == |s.blocks| + 1 && s'.blocks[..|s.blocks|] == s.blocks
    requires s'.unanswered == s.unanswered && s'.sent == s.sent && OurTodo(s') == OurTodo(s)
    requires s'.next == s.next && s'.count == s.count && s'.configs == s.configs && s'.snapshots == s.snapshots
    ensures AllKnown(s') && ReportsOk(s', OurTodo(s')) && (forall r :: r in s'.unanswered ==> Open(s', r))
  {
    assert forall i :: 0 <= i < |s.blocks| ==> s'.blocks[i] == s.blocks[i];
    assert forall r :: Open(s, r) ==> Open(s', r);
  }

  // ---------------------------------------------------------------------
  // Order.

  lemma ActionsInOrder(b: MappedBlock)
    ensures InOrder(Segs(Actions(b)), b.withStatus.number, b.withStatus.number + 1)
  {
    SegsOfActions(b);
    var segs := Segs(Actions(b));
    if |segs| == 2 { assert segs[1..] == [segs[1]]; }
  }

  lemma OrderTakeBlock(s: State, b: MappedBlock)
    requires OrderInv(s) && Enabled(s, TakeBlock(b))
    ensures OrderInv(Step(s, TakeBlock(b)))
  {
    var s', more := Step(s, TakeBlock(b)), Segs(Actions(b));
    ActionsInOrder(b);
    InOrderAppend(Unregistered(s), s.next + s.count, s.start + |s.blocks|, more, s.start + |s.blocks| + 1);
    assert Unregistered(s') == Unregistered(s) + more;
  }

  lemma OrderRegister(s: State)
    requires BlocksInv(s) && PlacesInv(s) && OrderInv(s) && s.sender.Got?
    ensures OrderInv(Step(s, Register))
  {
    RegisterStep(s);
    assert Unregistered(s)[1..] == Unregistered(Step(s, Register));
  }

  lemma OrderProcess(s: State)
    requires BlocksInv(s) && PlacesInv(s) && OrderInv(s) && Enabled(s, Process)
    ensures OrderInv(Step(s, Process))
  {
    ProcessStep(s);
    assert Unregistered(s) == Unregistered(Step(s, Process));
  }

  lemma OrderKept(s: State, e: Event)
    requires OrderInv(s) && Enabled(s, e) && !e.TakeBlock? && !e.Register? && !e.Process?
    ensures OrderInv(Step(s, e))
  {
    var s' := Step(s, e);
    UnregisteredKept(s, e);
    assert s'.next + s'.count == s.next + s.count && |s'.blocks| == |s.blocks|;
  }

  lemma DrainSegs(s: State)
    requires Enabled(s, DrainDone)
    ensures Unregistered(Step(s, DrainDone)) == Unregistered(s)
  {
    assert Segs(s.todo) == [] + Segs(s.todo[1..]);
  }

  lemma AcquireSegs(s: State)
    requires Enabled(s, Acquire)
    ensures Unregistered(Step(s, Acquire)) == Unregistered(s)
  {
    assert Step(s, Acquire).todo[1..] == s.todo[1..];
  }

  lemma WriteSegs(s: State)
    requires Enabled(s, Write)
    ensures Unregistered(Step(s, Write)) == Unregistered(s)
  {
    assert Segs(s.todo) == [s.todo[0].seg] + Segs(s.todo[1..]);
  }

  lemma ReadSegs(s: State)
    requires Enabled(s, ReadSegment)
    ensures Unregistered(Step(s, ReadSegment)) == Unregistered(s)
  {
    assert s.queue == [s.queue[0]] + s.queue[1..];
  }

  lemma UnregisteredKept(s: State, e: Event)
    requires Enabled(s, e) && !e.TakeBlock? && !e.Register? && !e.Process?
    ensures Unregistered(Step(s, e)) == Unregistered(s)
  {
    if e.DrainDone? {
      DrainSegs(s);
    } else if e.Acquire? {
      AcquireSegs(s);
    } else if e.Write? {
      WriteSegs(s);
    } else if e.ReadSegment? {
      ReadSegs(s);
    } else {
      OtherSegs(s, e);
    }
  }

  lemma OtherSegs(s: State, e: Event)
    requires Enabled(s, e) && !e.TakeBlock? && !e.Register? && !e.Process?
    requires !e.DrainDone? && !e.Acquire? && !e.Write? && !e.ReadSegment?
    ensures Unregistered(Step(s, e)) == Unregistered(s)
  {
    var s' := Step(s, e);
    assert s'.queue == s.queue && s'.todo == s.todo;
    assert s'.sender.Got? == s.sender.Got? && (s.sender.Got? ==> s'.sender == s.sender);
  }

  // ---------------------------------------------------------------------
  // Barriers.

  lemma ShapeWeaker(todo: seq<Action>, clear: bool)
    requires Shape(todo, false)
    ensures Shape(todo, clear)
  {
  }

  lemma ActionsShape(b: MappedBlock, clear: bool)
    ensures Shape(Actions(b), clear) && OnlyHeadEnqueues(Actions(b))
  {
    var n := b.withStatus.number;
    BarrierShape(Segment(n, Refs(n, b.txs), OfConfig), clear);
    if b.snapshot.Some? {
      var tail := [Drain, Submit(Segment(n, {Ref(n, b.snapshot.value)}, OfSnapshot)), Drain];
      BarrierShape(Segment(n, {Ref(n, b.snapshot.value)}, OfSnapshot), clear);
      BarrierShape(Segment(n, {Ref(n, b.snapshot.value)}, OfSnapshot), false);
      assert ([Submit(Segment(n, Refs(n, b.txs), Plain))] + tail)[1..] == tail;
      assert [] + tail == tail;
    }
  }

  lemma BarrierShape(seg: Segment, clear: bool)
    ensures Shape([Drain, Submit(seg), Drain], clear)
  {
    assert [Drain, Submit(seg), Drain][1..] == [Submit(seg), Drain];
    assert [Submit(seg), Drain][1..] == [Drain];
    assert Shape([Drain], false);
  }

  lemma BarrierTakeBlock(s: State, b: MappedBlock)
    requires BarrierInv(s) && Enabled(s, TakeBlock(b))
    ensures BarrierInv(Step(s, TakeBlock(b)))
  {
    ActionsShape(b, s.unanswered == {});
  }

  lemma BarrierDrain(s: State)
    requires SlotsInv(s) && BarrierInv(s) && Enabled(s, DrainDone)
    ensures BarrierInv(Step(s, DrainDone))
  {
    assert |s.unanswered| == 0;
  }

  lemma BarrierAcquire(s: State)
    requires PlacesInv(s) && BarrierInv(s) && Enabled(s, Acquire)
    ensures BarrierInv(Step(s, Acquire))
  {
    HeadIsComing(s);
    var s' := Step(s, Acquire);
    assert s'.todo[1..] == s.todo[1..];
  }

  lemma BarrierShrinks(s: State, s': State)
    requires BarrierInv(s) && s'.unanswered <= s.unanswered
    requires s'.configs == s.configs && s'.snapshots == s.snapshots && s'.todo == s.todo && s'.barrier == s.barrier
    ensures BarrierInv(s')
  {
    if s'.unanswered != s.unanswered { ShapeWeaker(s.todo, s'.unanswered == {}); }
  }

  lemma BarrierWrite(s: State)
    requires BarrierInv(s) && Enabled(s, Write)
    ensures BarrierInv(Step(s, Write))
  {
    ShapeWeaker(s.todo[1..], s.unanswered == {});
  }

  lemma BarrierKept(s: State, e: Event)
    requires BarrierInv(s) && Enabled(s, e) && !e.TakeBlock? && !e.DrainDone? && !e.Acquire? && !e.Write?
    ensures BarrierInv(Step(s, e))
  {
    BarrierShrinks(s, Step(s, e));
  }

  // ---------------------------------------------------------------------
  // Watched.

  lemma WatchedRegister(s: State)
    requires BlocksInv(s) && PlacesInv(s) && OrderInv(s) && WatchedInv(s) && s.sender.Got?
    ensures WatchedInv(Step(s, Register))
  {
    RegisterStep(s);
  }

  lemma WatchedCheck(s: State)
    requires BlocksInv(s) && WatchedInv(s) && Enabled(s, Check)
    ensures WatchedInv(Step(s, Check))
  {
    if Tracked(s, s.sender.seg.block) {
      assert BlockOk(s.blocks[s.sender.seg.block - s.start], s.sender.seg.block);
    }
  }

  lemma WatchedKept(s: State, e: Event)
    requires WatchedInv(s) && BlocksInv(s) && Enabled(s, e) && !e.Register? && !e.Check?
    ensures WatchedInv(Step(s, e))
  {
  }

  // ---------------------------------------------------------------------
  // Where final statuses come from.

  /** The status at a position is the one mapping gave it or, once it has one, the reported one. */
  ghost predicate FromSource(s: State, i: nat, n: nat)
    requires i < |s.blocks| && i < |s.mapped| && n < |s.blocks[i].status| && n < |s.mapped[i].status|
  {
    var now, given, ref := s.blocks[i].status[n], s.mapped[i].status[n], Ref(s.start + i, n);
    if given != Unspecified then now == given
    else now == Unspecified || (ref in s.reported && s.reported[ref] == now)
  }

  ghost predicate SourcesInv(s: State) {
    && |s.mapped| == |s.blocks|
    && (forall i :: 0 <= i < |s.blocks| ==>
          |s.mapped[i].status| == |s.blocks[i].status| && s.mapped[i].ids == s.blocks[i].ids)
    && (forall i, n :: 0 <= i < |s.blocks| && 0 <= n < |s.blocks[i].status| ==> FromSource(s, i, n))
    && (forall r :: r in OurTodo(s) && r.ours ==> r.ref in s.reported && s.reported[r.ref] == r.status)
  }

  lemma {:induction false} SaidOf(batch: seq<Report>, r: Report)
    requires r in batch && r.ours
    requires forall i, j :: 0 <= i < j < |batch| && batch[i].ours && batch[j].ours ==> batch[i].ref != batch[j].ref
    ensures r.ref in Said(batch) && Said(batch)[r.ref] == r.status
  {
    if r != batch[0] {
      SaidOf(batch[1..], r);
      var i :| 0 <= i < |batch[1..]| && batch[1..][i] == r;
      assert batch[i + 1] == r;
    }
  }

  lemma {:induction false} SaidOnlyOurs(batch: seq<Report>, ref: Ref)
    requires ref in Said(batch)
    ensures ref in OurRefs(batch)
  {
    if batch[0].ours && batch[0].ref == ref {
      assert batch[0] in batch;
    } else {
      SaidOnlyOurs(batch[1..], ref);
    }
  }

  lemma SourcesDeliver(s: State, batch: seq<Report>)
    requires PlacesInv(s) && SourcesInv(s) && Enabled(s, Deliver(batch))
    ensures SourcesInv(Step(s, Deliver(batch)))
  {
    var s' := Step(s, Deliver(batch));
    forall i, n | 0 <= i < |s'.blocks| && 0 <= n < |s'.blocks[i].status| ensures FromSource(s', i, n) {
      assert FromSource(s, i, n);
      var ref := Ref(s.start + i, n);
      if ref in Said(batch) {
        SaidOnlyOurs(batch, ref);
        assert Open(s, ref);
      }
    }
    forall r | r in batch && r.ours ensures r.ref in s'.reported && s'.reported[r.ref] == r.status { SaidOf(batch, r); }
  }

  lemma SourcesProcess(s: State)
    requires BlocksInv(s) && PlacesInv(s) && SourcesInv(s) && Enabled(s, Process)
    ensures SourcesInv(Step(s, Process))
  {
    ProcessStep(s);
    var s', r := Step(s, Process), s.receiver.todo[0];
    assert r in s.receiver.todo && forall x :: x in s.receiver.todo[1..] ==> x in s.receiver.todo;
    forall i, n | 0 <= i < |s'.blocks| && 0 <= n < |s'.blocks[i].status| ensures FromSource(s', i, n) {
      assert FromSource(s, i, n);
    }
  }

  lemma SourcesTakeBlock(s: State, b: MappedBlock)
    requires SourcesInv(s) && Enabled(s, TakeBlock(b))
    ensures SourcesInv(Step(s, TakeBlock(b)))
  {
    var s' := Step(s, TakeBlock(b));
    forall i, n | 0 <= i < |s'.blocks| && 0 <= n < |s'.blocks[i].status| ensures FromSource(s', i, n) {
      if i < |s.blocks| { assert FromSource(s, i, n); }
    }
  }

  lemma SourcesSame(s: State, s': State)
    requires SourcesInv(s) && s'.blocks == s.blocks && s'.mapped == s.mapped && s'.reported == s.reported
    requires s'.start == s.start && OurTodo(s') == OurTodo(s)
    ensures SourcesInv(s')
  {
    forall i, n | 0 <= i < |s'.blocks| && 0 <= n < |s'.blocks[i].status| ensures FromSource(s', i, n) {
      assert FromSource(s, i, n);
    }
  }

  lemma SourcesKept(s: State, e: Event)
    requires BlocksInv(s) && PlacesInv(s) && SourcesInv(s) && Enabled(s, e)
    ensures SourcesInv(Step(s, e))
  {
    match e
    case TakeBlock(b) => SourcesTakeBlock(s, b);
    case Deliver(batch) => SourcesDeliver(s, batch);
    case Process => SourcesProcess(s);
    case _ => SourcesSame(s, Step(s, e));
  }

  // ---------------------------------------------------------------------
  // Whole sessions.

  lemma PlacesKept(s: State, e: Event)
    requires Inv(s) && Enabled(s, e)
    ensures PlacesInv(Step(s, e))
  {
    match e
    case TakeBlock(b) => PlacesTakeBlock(s, b);
    case Acquire => PlacesAcquire(s);
    case Register => PlacesRegister(s);
    case Send => PlacesSend(s);
    case Deliver(batch) => PlacesDeliver(s, batch);
    case Process => PlacesProcess(s);
    case Feedback(ref) => PlacesFeedback(s, ref);
    case _ =>
      QuietSame(s, e);
      PlacesSame(s, Step(s, e));
  }

  lemma SlotsAll(s: State, e: Event)
    requires SlotsInv(s) && BlocksInv(s) && PlacesInv(s) && Enabled(s, e)
    ensures SlotsInv(Step(s, e))
  {
    if e.Acquire? {
      HeadIsComing(s);
      SlotsAcquire(s);
    } else if e.Process? {
      SlotsProcess(s);
    } else {
      SlotsKept(s, e);
    }
  }

  lemma BlocksAll(s: State, e: Event)
    requires BlocksInv(s) && PlacesInv(s) && OrderInv(s) && Enabled(s, e)
    ensures BlocksInv(Step(s, e))
  {
    if e.Register? {
      BlocksRegister(s);
    } else if e.Process? {
      BlocksProcess(s);
    } else {
      BlocksKept(s, e);
    }
  }

  lemma OrderAll(s: State, e: Event)
    requires BlocksInv(s) && PlacesInv(s) && OrderInv(s) && Enabled(s, e)
    ensures OrderInv(Step(s, e))
  {
    if e.TakeBlock? {
      OrderTakeBlock(s, e.b);
    } else if e.Register? {
      OrderRegister(s);
    } else if e.Process? {
      OrderProcess(s);
    } else {
      OrderKept(s, e);
    }
  }

  lemma BarrierAll(s: State, e: Event)
    requires SlotsInv(s) && PlacesInv(s) && BarrierInv(s) && Enabled(s, e)
    ensures BarrierInv(Step(s, e))
  {
    if e.TakeBlock? {
      BarrierTakeBlock(s, e.b);
    } else if e.DrainDone? {
      BarrierDrain(s);
    } else if e.Acquire? {
      BarrierAcquire(s);
    } else if e.Write? {
      BarrierWrite(s);
    } else {
      BarrierKept(s, e);
    }
  }

  lemma WatchedAll(s: State, e: Event)
    requires BlocksInv(s) && PlacesInv(s) && OrderInv(s) && WatchedInv(s) && Enabled(s, e)
    ensures WatchedInv(Step(s, e))
  {
    if e.Register? {
      WatchedRegister(s);
    } else if e.Check? {
      WatchedCheck(s);
    } else {
      WatchedKept(s, e);
    }
  }

  lemma StepKeepsInv(s: State, e: Event)
    requires Inv(s) && Enabled(s, e)
    ensures Inv(Step(s, e))
  {
    SlotsAll(s, e);
    BlocksAll(s, e);
    PlacesKept(s, e);
    OrderAll(s, e);
    BarrierAll(s, e);
    WatchedAll(s, e);
    SourcesKept(s, e);
  }

  ghost predicate Taken(states: seq<State>, events: seq<Event>, i: nat) {
    i < |events| && i + 1 < |states| && Enabled(states[i], events[i]) && states[i + 1] == Step(states[i], events[i])
  }

  ghost predicate Run(states: seq<State>, events: seq<Event>) {
    && |states| == |events| + 1 && Init(states[0])
    && forall i :: 0 <= i < |events| ==> Taken(states, events, i)
  }

  lemma InitPlaces(s: State)
    requires Init(s)
    ensures PlacesInv(s) && OrderInv(s)
  {
    assert Unsent(s) == [] && Unregistered(s) == [] && OurTodo(s) == [];
  }

  lemma InitInv(s: State)
    requires Init(s)
    ensures Inv(s)
  {
    InitPlaces(s);
  }

  lemma {:induction false} RunKeepsInv(states: seq<State>, events: seq<Event>, k: nat)
    requires Run(states, events) && k < |states|
    ensures Inv(states[k])
  {
    if k == 0 {
      InitInv(states[0]);
    } else {
      RunKeepsInv(states, events, k - 1);
      assert Taken(states, events, k - 1);
      StepKeepsInv(states[k - 1], events[k - 1]);
    }
  }

  /** In every state of a session the free slots are the limit less the submitted transactions without a
      result (and less the results about to be given back), and in flight there is never more than the
      limit less one plus the largest segment. */
  lemma SlotsAccount(states: seq<State>, events: seq<Event>, k: nat)
    requires Run(states, events) && k < |states|
    ensures var s := states[k];
            && s.available == s.limit - |s.unanswered| - Unreleased(s)
            && |s.unanswered| <= s.limit - 1 + s.largest
  {
    RunKeepsInv(states, events, k);
  }

  /** While a transaction of a config block is in flight, so are only transactions of that block; while
      a snapshot transaction is in flight, nothing else is. */
  lemma BarriersHold(states: seq<State>, events: seq<Event>, k: nat, r: Ref, q: Ref)
    requires Run(states, events) && k < |states|
    requires r in states[k].unanswered && q in states[k].unanswered
    ensures r in states[k].configs ==> q.block == r.block
    ensures r in states[k].snapshots ==> q == r
  {
    RunKeepsInv(states, events, k);
    var s := states[k];
    if r in s.snapshots && q != r {
      assert {r, q} <= s.barrier.value.refs;
      assert |{r, q}| == 2;
      SubsetSize({r, q}, s.barrier.value.refs);
    }
  }

  lemma SubsetSize(a: set<Ref>, b: set<Ref>)
    requires a <= b
    ensures |a| <= |b|
  {
    assert b == a + (b - a);
  }

  /** Committed blocks come out with consecutive numbers from the session's start, each once, with every
      status final, and each status is the one mapping gave or the one the coordinator reported; nothing
      fails on the way; and whenever both goroutines are between steps the oldest block in flight has a
      pending transaction, or none is in flight. */
  lemma EmitsInOrder(states: seq<State>, events: seq<Event>, k: nat)
    requires Run(states, events) && k < |states|
    ensures var s := states[k];
            && !s.sender.Failed? && !s.receiver.Broken?
            && |s.emitted| <= |s.blocks| && s.next == s.start + |s.emitted|
            && (forall i :: 0 <= i < |s.emitted| ==>
                  s.emitted[i].number == s.start + i && Unspecified !in s.emitted[i].status)
            && (forall i :: 0 <= i < |s.emitted| ==> StatusesFrom(s, i))
            && (s.sender.Ready? && s.receiver.Idle? && s.count > 0 ==> PendingOf(s, s.next) > 0)
  {
    RunKeepsInv(states, events, k);
    var s := states[k];
    forall i | 0 <= i < |s.emitted| ensures s.emitted[i].number == s.start + i && Unspecified !in s.emitted[i].status {
      assert BlockOk(s.blocks[i], s.start + i);
      UnsetZero(s.blocks[i].status);
    }
    forall i | 0 <= i < |s.emitted| ensures StatusesFrom(s, i) { EmittedFrom(s, i); }
  }

  /** The i-th emitted block carries, position by position, the status mapping gave or the reported one. */
  ghost predicate StatusesFrom(s: State, i: nat) {
    && i < |s.emitted| && i < |s.mapped|
    && |s.mapped[i].status| == |s.emitted[i].status| && s.mapped[i].ids == s.emitted[i].ids
    && forall n :: 0 <= n < |s.emitted[i].status| ==>
         var given, ref := s.mapped[i].status[n], Ref(s.start + i, n);
         if given != Unspecified then s.emitted[i].status[n] == given
         else ref in s.reported && s.reported[ref] == s.emitted[i].status[n]
  }

  lemma EmittedFrom(s: State, i: nat)
    requires BlocksInv(s) && SourcesInv(s) && i < |s.emitted| && Unspecified !in s.emitted[i].status
    ensures StatusesFrom(s, i)
  {
    forall n | 0 <= n < |s.emitted[i].status|
      ensures var given, ref := s.mapped[i].status[n], Ref(s.start + i, n);
              if given != Unspecified then s.emitted[i].status[n] == given
              else ref in s.reported && s.reported[ref] == s.emitted[i].status[n]
    {
      assert FromSource(s, i, n);
      assert s.emitted[i].status[n] in s.emitted[i].status;
    }
  }

  // ---------------------------------------------------------------------
  // A block whose snapshot transaction is never submitted.

  /** r waits for a result and is neither submitted nor going to be. */
  ghost predicate Stranded(s: State, r: Ref) {
    Open(s, r) && r !in s.unanswered && forall seg :: seg in Unsent(s) ==> r !in seg.refs
  }

  lemma StrandedByBlock(s: State, b: MappedBlock)
    requires PlacesInv(s) && Enabled(s, TakeBlock(b)) && b.isConfig && b.snapshot.Some?
    ensures Stranded(Step(s, TakeBlock(b)), Ref(b.withStatus.number, b.snapshot.value))
  {
    var s', r := Step(s, TakeBlock(b)), Ref(b.withStatus.number, b.snapshot.value);
    NewIsOpen(s, s', b, b.snapshot.value);
    SegsOfActions(b);
    assert Holding(s) == |Unsent(s)| && Unsent(s') == Unsent(s) + Segs(Actions(b));
    forall seg | seg in Unsent(s') ensures r !in seg.refs {
      if seg in Unsent(s) { assert Carried(s, seg); }
    }
  }

  lemma StrandedTakeBlock(s: State, b: MappedBlock, r: Ref)
    requires AllKnown(s) && Enabled(s, TakeBlock(b)) && Stranded(s, r)
    ensures Stranded(Step(s, TakeBlock(b)), r)
  {
    var s', more := Step(s, TakeBlock(b)), Segs(Actions(b));
    NewSegs(s, s', b);
    assert Unsent(s') == Unsent(s) + more;
    forall seg | seg in Unsent(s') ensures r !in seg.refs {
      if seg !in Unsent(s) {
        var i :| 0 <= i < |more| && more[i] == seg;
        assert OwnRefs(more[i]);
      }
    }
  }

  lemma StrandedSame(s: State, s': State, r: Ref)
    requires Stranded(s, r) && s'.blocks == s.blocks && s'.start == s.start && r !in s'.unanswered
    requires Unsent(s') == Unsent(s)
    ensures Stranded(s', r)
  {
  }

  lemma StrandedAcquire(s: State, r: Ref)
    requires PlacesInv(s) && Enabled(s, Acquire) && Stranded(s, r)
    ensures Stranded(Step(s, Acquire), r)
  {
    HeadIsComing(s);
    AcquireShifts(s);
    assert r !in s.todo[0].seg.refs;
    StrandedSame(s, Step(s, Acquire), r);
  }

  lemma StrandedSend(s: State, r: Ref)
    requires Enabled(s, Send) && Stranded(s, r)
    ensures Stranded(Step(s, Send), r)
  {
    SendShifts(s);
    assert forall seg :: seg in Unsent(s)[1..] ==> seg in Unsent(s);
  }

  lemma StrandedProcess(s: State, r: Ref)
    requires BlocksInv(s) && PlacesInv(s) && Enabled(s, Process) && Stranded(s, r)
    ensures Stranded(Step(s, Process), r)
  {
    ProcessStep(s);
    if s.receiver.todo[0].ours { ProcessAnswers(s); }
    assert Unsent(Step(s, Process)) == Unsent(s);
  }

  lemma StrandedKept(s: State, e: Event, r: Ref)
    requires Inv(s) && Enabled(s, e) && Stranded(s, r)
    ensures Stranded(Step(s, e), r)
  {
    if e.TakeBlock? {
      StrandedTakeBlock(s, e.b, r);
    } else if e.Acquire? {
      StrandedAcquire(s, r);
    } else if e.Send? {
      StrandedSend(s, r);
    } else if e.Process? {
      StrandedProcess(s, r);
    } else if e.Register? {
      RegisterStep(s);
      StrandedSame(s, Step(s, e), r);
    } else if e.Deliver? || e.Feedback? {
      StrandedSame(s, Step(s, e), r);
    } else {
      QuietSame(s, e);
      StrandedSame(s, Step(s, e), r);
    }
  }

  lemma StrandedFirst(states: seq<State>, events: seq<Event>, m: nat)
    requires Run(states, events) && m < |events|
    requires events[m].TakeBlock? && events[m].b.isConfig && events[m].b.snapshot.Some?
    ensures Stranded(states[m + 1], Ref(events[m].b.withStatus.number, events[m].b.snapshot.value))
  {
    RunKeepsInv(states, events, m);
    assert Taken(states, events, m);
    StrandedByBlock(states[m], events[m].b);
  }

  lemma StrandedNext(states: seq<State>, events: seq<Event>, k: nat, r: Ref)
    requires Run(states, events) && k < |events| && Stranded(states[k], r)
    ensures Stranded(states[k + 1], r)
  {
    RunKeepsInv(states, events, k);
    assert Taken(states, events, k);
    StrandedKept(states[k], events[k], r);
  }

  lemma {:induction false} StaysStranded(states: seq<State>, events: seq<Event>, m: nat, k: nat)
    requires Run(states, events) && m < k < |states|
    requires events[m].TakeBlock? && events[m].b.isConfig && events[m].b.snapshot.Some?
    ensures Stranded(states[k], Ref(events[m].b.withStatus.number, events[m].b.snapshot.value))
  {
    if k == m + 1 {
      StrandedFirst(states, events, m);
    } else {
      StaysStranded(states, events, m, k - 1);
      StrandedNext(states, events, k - 1, Ref(events[m].b.withStatus.number, events[m].b.snapshot.value));
    }
  }

  /** Once a session takes in a block with both a config and an accepted snapshot transaction, it emits
      neither that block nor any later one. */
  lemma NeverEmitted(states: seq<State>, events: seq<Event>, m: nat, k: nat)
    requires Run(states, events) && m < k < |states|
    requires events[m].TakeBlock? && events[m].b.isConfig && events[m].b.snapshot.Some?
    ensures states[k].next <= events[m].b.withStatus.number
    ensures forall b :: b in states[k].emitted ==> b.number < events[m].b.withStatus.number
  {
    RunKeepsInv(states, events, k);
    StaysStranded(states, events, m, k);
    var s := states[k];
    OpenIsAhead(s, Ref(events[m].b.withStatus.number, events[m].b.snapshot.value));
    forall b | b in s.emitted ensures b.number < events[m].b.withStatus.number {
      var i :| 0 <= i < |s.emitted| && s.emitted[i] == b;
      assert BlockOk(s.blocks[i], s.start + i);
    }
  }
}
