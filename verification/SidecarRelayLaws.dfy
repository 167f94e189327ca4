/** Where every transaction of a session is, and what becomes of it, said of the session's events. */
module RelayLaws {
  import BlockMapping
  import opened Common
  import opened RelaySteps
  import opened RelaySafety

  // ---------------------------------------------------------------------
  // Nothing is lost on the way.

  /** r is in a segment that has its slots and was not sent. */
  ghost predicate HeldBack(s: State, r: Ref) {
    exists i :: 0 <= i < Holding(s) && i < |Unsent(s)| && r in Unsent(s)[i].refs
  }

  ghost predicate InSegment(s: State, r: Ref) {
    exists seg :: seg in Unsent(s) && r in seg.refs
  }

  /** An unanswered transaction is held back, with the coordinator, or reported and not looked at yet. */
  ghost predicate Placed(s: State, r: Ref) {
    r in s.unanswered ==> HeldBack(s, r) || r in s.sent || r in OurRefs(OurTodo(s))
  }

  lemma PlacedTakeBlock(s: State, b: MappedBlock, r: Ref)
    requires Enabled(s, TakeBlock(b)) && Placed(s, r)
    ensures Placed(Step(s, TakeBlock(b)), r)
  {
    var s' := Step(s, TakeBlock(b));
    assert Unsent(s') == Unsent(s) + Segs(Actions(b));
    if HeldBack(s, r) {
      var i :| 0 <= i < Holding(s) && i < |Unsent(s)| && r in Unsent(s)[i].refs;
      assert Unsent(s')[i] == Unsent(s)[i];
    }
  }

  lemma PlacedAcquire(s: State, r: Ref)
    requires PlacesInv(s) && Enabled(s, Acquire) && Placed(s, r)
    ensures Placed(Step(s, Acquire), r)
  {
    HeadIsComing(s);
    AcquireShifts(s);
    var s' := Step(s, Acquire);
    if HeldBack(s, r) {
      var i :| 0 <= i < Holding(s) && i < |Unsent(s)| && r in Unsent(s)[i].refs;
      assert Unsent(s')[i] == Unsent(s)[i];
    } else if r in s.todo[0].seg.refs {
      assert r in Unsent(s')[Holding(s)].refs;
    }
  }

  /** What was in the segment just held is with the coordinator. */
  lemma SendHandsOver(s: State)
    requires Enabled(s, Send)
    ensures Step(s, Send).sent == s.sent + s.sender.seg.refs && Step(s, Send).sender.Ready?
  {
  }

  lemma PlacedSend(s: State, r: Ref)
    requires Enabled(s, Send) && Placed(s, r)
    ensures Placed(Step(s, Send), r)
  {
    SendShifts(s);
    SendHandsOver(s);
    if HeldBack(s, r) {
      var i :| 0 <= i < Holding(s) && i < |Unsent(s)| && r in Unsent(s)[i].refs;
      if i > 0 { assert Unsent(Step(s, Send))[i - 1] == Unsent(s)[i]; }
    }
  }

  lemma PlacedDeliver(s: State, batch: seq<Report>, r: Ref)
    requires Enabled(s, Deliver(batch)) && Placed(s, r)
    ensures Placed(Step(s, Deliver(batch)), r)
  {
    var s' := Step(s, Deliver(batch));
    assert Unsent(s') == Unsent(s) && Holding(s') == Holding(s) && OurTodo(s') == batch;
  }

  lemma PlacedProcess(s: State, r: Ref)
    requires BlocksInv(s) && PlacesInv(s) && Enabled(s, Process) && Placed(s, r)
    ensures Placed(Step(s, Process), r)
  {
    ProcessStep(s);
    var s', todo := Step(s, Process), s.receiver.todo;
    assert Unsent(s') == Unsent(s) && Holding(s') == Holding(s) && OurTodo(s') == todo[1..];
    if r in OurRefs(todo) && !(todo[0].ours && r == todo[0].ref) {
      var x :| x in todo && x.ours && x.ref == r;
      assert x in todo[1..];
    }
  }

  lemma PlacedFeedback(s: State, ref: Ref, r: Ref)
    requires BlocksInv(s) && PlacesInv(s) && Enabled(s, Feedback(ref)) && Placed(s, r)
    ensures Placed(Step(s, Feedback(ref)), r)
  {
    OpenIsAhead(s, ref);
    var s' := Step(s, Feedback(ref));
    assert Unsent(s') == Unsent(s) && Holding(s') == Holding(s);
  }

  lemma PlacedSame(s: State, s': State, r: Ref)
    requires Placed(s, r) && SamePlaces(s, s')
    ensures Placed(s', r)
  {
  }

  lemma PlacedKept(s: State, e: Event, r: Ref)
    requires Inv(s) && Enabled(s, e) && Placed(s, r)
    ensures Placed(Step(s, e), r)
  {
    if e.TakeBlock? {
      PlacedTakeBlock(s, e.b, r);
    } else if e.Acquire? {
      PlacedAcquire(s, r);
    } else if e.Send? {
      PlacedSend(s, r);
    } else if e.Deliver? {
      PlacedDeliver(s, e.batch, r);
    } else if e.Process? {
      PlacedProcess(s, r);
    } else if e.Feedback? {
      PlacedFeedback(s, e.ref, r);
    } else if e.Register? {
      RegisterStep(s);
      PlacedSame(s, Step(s, e), r);
    } else {
      QuietSame(s, e);
      PlacedSame(s, Step(s, e), r);
    }
  }

  lemma {:induction false} RunPlaced(states: seq<State>, events: seq<Event>, k: nat, r: Ref)
    requires Run(states, events) && k < |states|
    ensures Placed(states[k], r)
  {
    if k > 0 {
      RunPlaced(states, events, k - 1, r);
      RunKeepsInv(states, events, k - 1);
      assert Taken(states, events, k - 1);
      PlacedKept(states[k - 1], events[k - 1], r);
    }
  }

  /** The session gave r up: feedback named it, or it is the snapshot transaction of a config block. */
  ghost predicate GivenUp(events: seq<Event>, k: nat, r: Ref)
    requires k <= |events|
  {
    exists m :: 0 <= m < k && GivesUp(events[m], r)
  }

  predicate GivesUp(e: Event, r: Ref) {
    || e == Feedback(r)
    || (e.TakeBlock? && e.b.isConfig && e.b.snapshot == Some(r.num) && e.b.withStatus.number == r.block)
  }

  /** A transaction without a final status is unanswered, still to be submitted, or given up. */
  ghost predicate Accounted(s: State, r: Ref) {
    Open(s, r) ==> r in s.unanswered || InSegment(s, r)
  }

  lemma AccountedTakeBlock(s: State, b: MappedBlock, r: Ref)
    requires Enabled(s, TakeBlock(b)) && (Accounted(s, r) || r.block == b.withStatus.number)
    ensures Accounted(Step(s, TakeBlock(b)), r) || GivesUp(TakeBlock(b), r)
  {
    var s', n := Step(s, TakeBlock(b)), b.withStatus.number;
    assert Unsent(s') == Unsent(s) + Segs(Actions(b));
    SegsOfActions(b);
    if Open(s', r) && r.block == n && !GivesUp(TakeBlock(b), r) {
      assert BlockAt(s', n) == b.withStatus;
      assert r == Ref(n, r.num) && (r.num in b.txs || b.snapshot == Some(r.num));
      NewInSegment(b, r.num);
      var seg :| seg in Segs(Actions(b)) && r in seg.refs;
      assert seg in Unsent(s');
    } else if Open(s', r) && r.block != n {
      assert Open(s, r);
      if InSegment(s, r) {
        var seg :| seg in Unsent(s) && r in seg.refs;
        assert seg in Unsent(s');
      }
    }
  }

  lemma NewInSegment(b: MappedBlock, n: nat)
    requires n in b.txs || (b.snapshot == Some(n) && !b.isConfig)
    ensures exists seg :: seg in Segs(Actions(b)) && Ref(b.withStatus.number, n) in seg.refs
  {
    SegsOfActions(b);
    var number, segs := b.withStatus.number, Segs(Actions(b));
    if n in b.txs {
      assert Ref(number, n) in Refs(number, b.txs);
      assert segs[0] in segs;
    } else {
      assert segs[|segs| - 1] in segs;
    }
  }

  lemma AccountedSend(s: State, r: Ref)
    requires PlacesInv(s) && Enabled(s, Send) && Accounted(s, r)
    ensures Accounted(Step(s, Send), r)
  {
    SendShifts(s);
    assert Carried(s, Unsent(s)[0]);
    if InSegment(s, r) {
      var seg :| seg in Unsent(s) && r in seg.refs;
      assert seg == Unsent(s)[0] || seg in Unsent(s)[1..];
    }
  }

  lemma AccountedSame(s: State, s': State, r: Ref)
    requires Accounted(s, r) && s'.blocks == s.blocks && s'.start == s.start && Unsent(s') == Unsent(s)
    requires r in s.unanswered ==> r in s'.unanswered
    ensures Accounted(s', r)
  {
  }

  lemma AccountedProcess(s: State, r: Ref)
    requires BlocksInv(s) && PlacesInv(s) && Enabled(s, Process) && Accounted(s, r)
    ensures Accounted(Step(s, Process), r)
  {
    ProcessStep(s);
    assert Unsent(Step(s, Process)) == Unsent(s);
  }

  lemma AccountedKept(s: State, e: Event, r: Ref)
    requires Inv(s) && Enabled(s, e) && Accounted(s, r)
    ensures Accounted(Step(s, e), r) || GivesUp(e, r)
  {
    if e.TakeBlock? {
      AccountedTakeBlock(s, e.b, r);
    } else if e.Acquire? {
      AcquireShifts(s);
      AccountedSame(s, Step(s, e), r);
    } else if e.Send? {
      AccountedSend(s, r);
    } else if e.Process? {
      AccountedProcess(s, r);
    } else if e.Deliver? || e.Register? {
      if e.Register? { RegisterStep(s); }
      AccountedSame(s, Step(s, e), r);
    } else if e.Feedback? {
      if e.ref != r { AccountedSame(s, Step(s, e), r); }
    } else {
      QuietSame(s, e);
      AccountedSame(s, Step(s, e), r);
    }
  }

  lemma {:induction false} RunAccounted(states: seq<State>, events: seq<Event>, k: nat, r: Ref)
    requires Run(states, events) && k < |states|
    ensures Accounted(states[k], r) || GivenUp(events, k, r)
  {
    if k > 0 {
      RunAccounted(states, events, k - 1, r);
      RunKeepsInv(states, events, k - 1);
      assert Taken(states, events, k - 1);
      if Accounted(states[k - 1], r) { AccountedKept(states[k - 1], events[k - 1], r); }
    }
  }

  /** In every state of every session a transaction without a final status is in exactly one place: in a segment
      still to be submitted, in one that has its slots and was not sent, with the coordinator, or among the
      reports still to be looked at; unless the session gave it up. And only such transactions are there. */
  lemma PendingIsSomewhere(states: seq<State>, events: seq<Event>, k: nat, r: Ref)
    requires Run(states, events) && k < |states|
    ensures var s := states[k];
            && (Open(s, r) ==> r in s.unanswered || InSegment(s, r) || GivenUp(events, k, r))
            && (r in s.unanswered || InSegment(s, r) ==> Open(s, r))
            && (r in s.unanswered <==> HeldBack(s, r) || r in s.sent || r in OurRefs(OurTodo(s)))
            && !(HeldBack(s, r) && r in s.sent) && !(HeldBack(s, r) && r in OurRefs(OurTodo(s)))
            && !(r in s.sent && r in OurRefs(OurTodo(s)))
            && (forall i, j :: 0 <= i < j < |Unsent(s)| ==> !(r in Unsent(s)[i].refs && r in Unsent(s)[j].refs))
  {
    RunPlaced(states, events, k, r);
    RunAccounted(states, events, k, r);
    RunKeepsInv(states, events, k);
    PlacesApart(states[k], r);
  }

  lemma PlacesApart(s: State, r: Ref)
    requires PlacesInv(s)
    ensures r in s.unanswered || InSegment(s, r) ==> Open(s, r)
    ensures HeldBack(s, r) || r in s.sent || r in OurRefs(OurTodo(s)) ==> r in s.unanswered
    ensures !(HeldBack(s, r) && r in s.sent) && !(HeldBack(s, r) && r in OurRefs(OurTodo(s)))
    ensures !(r in s.sent && r in OurRefs(OurTodo(s)))
    ensures forall i, j :: 0 <= i < j < |Unsent(s)| ==> !(r in Unsent(s)[i].refs && r in Unsent(s)[j].refs)
  {
    var segs := Unsent(s);
    if HeldBack(s, r) {
      var i :| 0 <= i < Holding(s) && i < |segs| && r in segs[i].refs;
      assert Carried(s, segs[i]);
    }
    if InSegment(s, r) {
      var seg :| seg in segs && r in seg.refs;
      var i :| 0 <= i < |segs| && segs[i] == seg;
      assert if i < Holding(s) then Carried(s, segs[i]) else Coming(s, segs[i]);
    }
    forall i, j | 0 <= i < j < |segs| ensures !(r in segs[i].refs && r in segs[j].refs) {
      assert segs[i].refs !! segs[j].refs;
    }
  }

  // ---------------------------------------------------------------------
  // Barriers, by the blocks that were taken in.

  predicate KnownAs(s: State, r: Ref, kind: Kind) {
    if kind.OfConfig? then r in s.configs else r in s.snapshots
  }

  /** r is submitted as kind only. */
  ghost predicate Marked(s: State, r: Ref, kind: Kind) {
    && r.block < s.start + |s.blocks|
    && (forall seg :: seg in Unsent(s) && r in seg.refs ==> seg.kind == kind)
    && (r in s.unanswered ==> KnownAs(s, r, kind))
  }

  /** The block's transaction r is one to be submitted as kind. */
  predicate Demands(b: MappedBlock, r: Ref, kind: Kind) {
    && r.block == b.withStatus.number
    && ((kind.OfConfig? && b.isConfig) || (kind.OfSnapshot? && !b.isConfig && b.snapshot == Some(r.num)))
  }

  lemma OldSegments(s: State, r: Ref)
    requires PlacesInv(s) && s.todo == [] && r.block >= s.start + |s.blocks|
    ensures r !in s.unanswered && forall seg :: seg in Unsent(s) ==> r !in seg.refs
  {
    assert Holding(s) == |Unsent(s)|;
    forall seg | seg in Unsent(s) ensures r !in seg.refs {
      var i :| 0 <= i < |Unsent(s)| && Unsent(s)[i] == seg;
      assert Carried(s, Unsent(s)[i]);
    }
  }

  lemma MarkedFirst(s: State, b: MappedBlock, r: Ref, kind: Kind)
    requires PlacesInv(s) && Enabled(s, TakeBlock(b)) && Demands(b, r, kind)
    ensures Marked(Step(s, TakeBlock(b)), r, kind)
  {
    var s' := Step(s, TakeBlock(b));
    OldSegments(s, r);
    SegsOfActions(b);
    assert Unsent(s') == Unsent(s) + Segs(Actions(b));
    forall seg | seg in Unsent(s') && r in seg.refs ensures seg.kind == kind {
      assert seg in Segs(Actions(b));
    }
  }

  lemma MarkedTakeBlock(s: State, b: MappedBlock, r: Ref, kind: Kind)
    requires AllKnown(s) && Enabled(s, TakeBlock(b)) && Marked(s, r, kind)
    ensures Marked(Step(s, TakeBlock(b)), r, kind)
  {
    var s', more := Step(s, TakeBlock(b)), Segs(Actions(b));
    NewSegs(s, s', b);
    assert Unsent(s') == Unsent(s) + more;
    forall i | 0 <= i < |more| ensures r !in more[i].refs {
      assert OwnRefs(more[i]) && more[i].block == s.start + |s.blocks|;
    }
    assert forall seg :: seg in Unsent(s') && r in seg.refs ==> seg in Unsent(s);
  }

  lemma MarkedAcquire(s: State, r: Ref, kind: Kind)
    requires PlacesInv(s) && Enabled(s, Acquire) && Marked(s, r, kind) && !kind.Plain?
    ensures Marked(Step(s, Acquire), r, kind)
  {
    HeadIsComing(s);
    AcquireShifts(s);
    assert s.todo[0].seg in Unsent(s);
  }

  lemma MarkedSend(s: State, r: Ref, kind: Kind)
    requires Enabled(s, Send) && Marked(s, r, kind)
    ensures Marked(Step(s, Send), r, kind)
  {
    SendShifts(s);
    assert forall seg :: seg in Unsent(s)[1..] ==> seg in Unsent(s);
  }

  lemma MarkedSame(s: State, s': State, r: Ref, kind: Kind)
    requires Marked(s, r, kind) && |s'.blocks| == |s.blocks| && s'.start == s.start && Unsent(s') == Unsent(s)
    requires s'.unanswered <= s.unanswered && s'.configs == s.configs && s'.snapshots == s.snapshots
    ensures Marked(s', r, kind)
  {
  }

  lemma MarkedOther(s: State, e: Event, r: Ref, kind: Kind)
    requires BlocksInv(s) && PlacesInv(s) && OrderInv(s) && Enabled(s, e) && Marked(s, r, kind)
    requires e.Process? || e.Deliver? || e.Feedback? || e.Register?
    ensures Marked(Step(s, e), r, kind)
  {
    if e.Process? { ProcessStep(s); }
    if e.Register? { RegisterStep(s); }
    MarkedSame(s, Step(s, e), r, kind);
  }

  lemma MarkedKept(s: State, e: Event, r: Ref, kind: Kind)
    requires Inv(s) && Enabled(s, e) && Marked(s, r, kind) && !kind.Plain?
    ensures Marked(Step(s, e), r, kind)
  {
    if e.TakeBlock? {
      MarkedTakeBlock(s, e.b, r, kind);
    } else if e.Acquire? {
      MarkedAcquire(s, r, kind);
    } else if e.Send? {
      MarkedSend(s, r, kind);
    } else if e.Process? || e.Deliver? || e.Feedback? || e.Register? {
      MarkedOther(s, e, r, kind);
    } else {
      QuietSame(s, e);
      MarkedSame(s, Step(s, e), r, kind);
    }
  }

  lemma MarkedAtFirst(states: seq<State>, events: seq<Event>, m: nat, r: Ref, kind: Kind)
    requires Run(states, events) && m < |events| && events[m].TakeBlock? && Demands(events[m].b, r, kind)
    ensures Marked(states[m + 1], r, kind)
  {
    RunKeepsInv(states, events, m);
    assert Taken(states, events, m);
    MarkedFirst(states[m], events[m].b, r, kind);
  }

  lemma MarkedNext(states: seq<State>, events: seq<Event>, k: nat, r: Ref, kind: Kind)
    requires Run(states, events) && k < |events| && Marked(states[k], r, kind) && !kind.Plain?
    ensures Marked(states[k + 1], r, kind)
  {
    RunKeepsInv(states, events, k);
    assert Taken(states, events, k);
    MarkedKept(states[k], events[k], r, kind);
  }

  lemma {:induction false} RunMarked(states: seq<State>, events: seq<Event>, m: nat, k: nat, r: Ref, kind: Kind)
    requires Run(states, events) && m < k < |states| && events[m].TakeBlock? && Demands(events[m].b, r, kind)
    ensures Marked(states[k], r, kind)
  {
    if k == m + 1 {
      MarkedAtFirst(states, events, m, r, kind);
    } else {
      RunMarked(states, events, m, k - 1, r, kind);
      MarkedNext(states, events, k - 1, r, kind);
    }
  }

  /** After a config block was taken in, no transaction of another block is in flight together with one of
      its own; after a block with an accepted snapshot transaction, nothing is in flight together with that. */
  lemma BlocksKeepApart(states: seq<State>, events: seq<Event>, m: nat, k: nat, r: Ref, q: Ref)
    requires Run(states, events) && m < k < |states| && events[m].TakeBlock?
    requires r.block == events[m].b.withStatus.number
    requires r in states[k].unanswered && q in states[k].unanswered
    ensures events[m].b.isConfig ==> q.block == r.block
    ensures !events[m].b.isConfig && events[m].b.snapshot == Some(r.num) ==> q == r
  {
    var b := events[m].b;
    if b.isConfig {
      RunMarked(states, events, m, k, r, OfConfig);
      BarriersHold(states, events, k, r, q);
    } else if b.snapshot == Some(r.num) {
      RunMarked(states, events, m, k, r, OfSnapshot);
      BarriersHold(states, events, k, r, q);
    }
  }

  // ---------------------------------------------------------------------
  // How much is in flight, by the size of the blocks.

  ghost predicate NoneLarger(s: State, n: nat) {
    s.largest <= n && forall seg :: seg in Unsent(s) ==> |seg.refs| <= n
  }

  lemma RefsSize(block: nat, nums: set<nat>)
    ensures |Refs(block, nums)| == |nums|
  {
    if nums != {} {
      var x :| x in nums;
      RefsSize(block, nums - {x});
      assert Refs(block, nums) == Refs(block, nums - {x}) + {Ref(block, x)};
    } else {
      assert Refs(block, nums) == {};
    }
  }

  lemma BlockSegments(b: MappedBlock, n: nat)
    requires |b.txs| <= n && 1 <= n
    ensures forall seg :: seg in Segs(Actions(b)) ==> |seg.refs| <= n
  {
    SegsOfActions(b);
    RefsSize(b.withStatus.number, b.txs);
  }

  lemma NoneLargerSame(s: State, s': State, n: nat)
    requires NoneLarger(s, n) && s'.largest == s.largest && forall seg :: seg in Unsent(s') ==> seg in Unsent(s)
    ensures NoneLarger(s', n)
  {
  }

  lemma NoneLargerTakeBlock(s: State, b: MappedBlock, n: nat)
    requires Enabled(s, TakeBlock(b)) && NoneLarger(s, n) && |b.txs| <= n && 1 <= n
    ensures NoneLarger(Step(s, TakeBlock(b)), n)
  {
    BlockSegments(b, n);
    assert Unsent(Step(s, TakeBlock(b))) == Unsent(s) + Segs(Actions(b));
  }

  lemma NoneLargerAcquire(s: State, n: nat)
    requires PlacesInv(s) && Enabled(s, Acquire) && NoneLarger(s, n)
    ensures NoneLarger(Step(s, Acquire), n)
  {
    HeadIsComing(s);
    AcquireShifts(s);
    assert s.todo[0].seg in Unsent(s);
  }

  lemma NoneLargerKept(s: State, e: Event, n: nat)
    requires Inv(s) && Enabled(s, e) && NoneLarger(s, n) && (e.TakeBlock? ==> |e.b.txs| <= n) && 1 <= n
    ensures NoneLarger(Step(s, e), n)
  {
    if e.TakeBlock? {
      NoneLargerTakeBlock(s, e.b, n);
    } else if e.Acquire? {
      NoneLargerAcquire(s, n);
    } else if e.Send? {
      SendShifts(s);
      NoneLargerSame(s, Step(s, e), n);
    } else if e.Process? || e.Deliver? || e.Feedback? || e.Register? {
      if e.Register? { RegisterStep(s); }
      NoneLargerSame(s, Step(s, e), n);
    } else {
      QuietSame(s, e);
      NoneLargerSame(s, Step(s, e), n);
    }
  }

  lemma {:induction false} RunNoneLarger(states: seq<State>, events: seq<Event>, k: nat, n: nat)
    requires Run(states, events) && k < |states| && 1 <= n
    requires forall m :: 0 <= m < k && events[m].TakeBlock? ==> |events[m].b.txs| <= n
    ensures NoneLarger(states[k], n)
  {
    if k == 0 {
      assert Unsent(states[0]) == [];
    } else {
      RunNoneLarger(states, events, k - 1, n);
      RunKeepsInv(states, events, k - 1);
      assert Taken(states, events, k - 1);
      NoneLargerKept(states[k - 1], events[k - 1], n);
    }
  }

  /** With blocks of at most n transactions, never more than limit - 1 + n are in flight. */
  lemma InFlightBound(states: seq<State>, events: seq<Event>, k: nat, n: nat)
    requires Run(states, events) && k < |states| && 1 <= n
    requires forall m :: 0 <= m < k && events[m].TakeBlock? ==> |events[m].b.txs| <= n
    ensures |states[k].unanswered| <= states[k].limit - 1 + n
  {
    RunNoneLarger(states, events, k, n);
    SlotsAccount(states, events, k);
  }

  // ---------------------------------------------------------------------
  // What the emitted statuses come from, by events.

  ghost function BlocksTaken(events: seq<Event>): seq<BlockStatus> {
    if events == [] then [] else
      var n := |events| - 1;
      BlocksTaken(events[..n]) + if events[n].TakeBlock? then [events[n].b.withStatus] else []
  }

  predicate Delivers(e: Event, r: Report) {
    e.Deliver? && r in e.batch && r.ours
  }

  ghost predicate Delivered(events: seq<Event>, k: nat, ref: Ref, status: BlockMapping.Status)
    requires k <= |events|
  {
    exists m, r :: 0 <= m < k && Delivers(events[m], r) && r.ref == ref && r.status == status
  }

  lemma {:induction false} RunHistory(states: seq<State>, events: seq<Event>, k: nat)
    requires Run(states, events) && k < |states|
    ensures states[k].mapped == BlocksTaken(events[..k])
    ensures forall ref :: ref in states[k].reported ==> Delivered(events, k, ref, states[k].reported[ref])
  {
    if k > 0 {
      RunHistory(states, events, k - 1);
      assert Taken(states, events, k - 1);
      assert events[..k][..k - 1] == events[..k - 1];
      var s, e := states[k - 1], events[k - 1];
      forall ref | ref in states[k].reported ensures Delivered(events, k, ref, states[k].reported[ref]) {
        ReportedNext(s, e, events, k, ref);
      }
    }
  }

  lemma ReportedNext(s: State, e: Event, events: seq<Event>, k: nat, ref: Ref)
    requires 0 < k <= |events| && e == events[k - 1] && Enabled(s, e) && ref in Step(s, e).reported
    requires forall r :: r in s.reported ==> Delivered(events, k - 1, r, s.reported[r])
    ensures Delivered(events, k, ref, Step(s, e).reported[ref])
  {
    if e.Deliver? && ref in Said(e.batch) {
      var r := SaidBy(e.batch, ref);
      assert Delivers(events[k - 1], r);
    } else {
      assert Delivered(events, k - 1, ref, s.reported[ref]);
    }
  }

  lemma {:induction false} SaidBy(batch: seq<Report>, ref: Ref) returns (r: Report)
    requires ref in Said(batch)
    ensures r in batch && r.ours && r.ref == ref && r.status == Said(batch)[ref]
  {
    if batch[0].ours && batch[0].ref == ref {
      r := batch[0];
    } else {
      r := SaidBy(batch[1..], ref);
    }
  }

  /** Each emitted block is the one taken in at its place, with its IDs, and each of its statuses is the one
      it came with or one the coordinator delivered for that transaction. */
  lemma EmittedByEvents(states: seq<State>, events: seq<Event>, k: nat, i: nat, n: nat)
    requires Run(states, events) && k < |states| && i < |states[k].emitted| && n < |states[k].emitted[i].status|
    ensures var s, taken := states[k], BlocksTaken(events[..k]);
            && i < |taken| && s.emitted[i].ids == taken[i].ids && n < |taken[i].status|
            && (if taken[i].status[n] != BlockMapping.Unspecified then s.emitted[i].status[n] == taken[i].status[n]
                else Delivered(events, k, Ref(s.start + i, n), s.emitted[i].status[n]))
  {
    EmitsInOrder(states, events, k);
    RunHistory(states, events, k);
    assert StatusesFrom(states[k], i);
  }

  // ---------------------------------------------------------------------
  // A batch of reports, taken to its end.

  lemma Snoc(states: seq<State>, events: seq<Event>, e: Event) returns (states': seq<State>, events': seq<Event>)
    requires Run(states, events) && Enabled(states[|events|], e)
    ensures Run(states', events') && events' == events + [e] && states'[0] == states[0]
    ensures states'[|events'|] == Step(states[|events|], e)
  {
    states', events' := states + [Step(states[|events|], e)], events + [e];
    forall i | 0 <= i < |events'| ensures Taken(states', events', i) {
      assert i < |events| ==> Taken(states, events, i);
    }
  }

  predicate StatusIs(s: State, ref: Ref, status: BlockMapping.Status) {
    && s.start <= ref.block && ref.block - s.start < |s.blocks| && ref.num < |BlockAt(s, ref.block).status|
    && BlockAt(s, ref.block).status[ref.num] == status
  }

  /** Only the statuses of the given transactions may differ. */
  ghost predicate SameBut(s: State, now: State, refs: set<Ref>) {
    forall ref, status :: ref !in refs ==> (StatusIs(now, ref, status) <==> StatusIs(s, ref, status))
  }

  /** What decides whether a report names a transaction in flight. */
  ghost predicate SameWindow(s: State, now: State) {
    && now.start == s.start && now.next == s.next && now.count == s.count && |now.blocks| == |s.blocks|
    && forall i :: 0 <= i < |s.blocks| ==> now.blocks[i].ids == s.blocks[i].ids
  }

  ghost predicate Recorded(now: State, batch: seq<Report>) {
    forall r :: r in batch && r.ours ==> StatusIs(now, r.ref, r.status)
  }

  /** The first n reports of the batch are looked at: ours are recorded and the rest is as it was at s. */
  ghost predicate LookedAt(s: State, batch: seq<Report>, n: nat, now: State)
    requires n <= |batch|
  {
    && now.receiver.Processing? && now.receiver.todo == batch[n..] && SameWindow(s, now)
    && now.sent == s.sent - OurRefs(batch) && now.unanswered == s.unanswered - OurRefs(batch[..n])
    && Recorded(now, batch[..n]) && SameBut(s, now, OurRefs(batch[..n]))
  }

  ghost predicate LeftoversGone(s: State, batch: seq<Report>) {
    forall r :: r in batch && !r.ours ==> !Held(s, r.ref, r.id)
  }

  ghost predicate OursDiffer(batch: seq<Report>) {
    forall i, j :: 0 <= i < j < |batch| && batch[i].ours && batch[j].ours ==> batch[i].ref != batch[j].ref
  }

  lemma OurRefsSnoc(batch: seq<Report>, n: nat)
    requires n < |batch|
    ensures OurRefs(batch[..n + 1]) == OurRefs(batch[..n]) + if batch[n].ours then {batch[n].ref} else {}
  {
    assert batch[..n + 1] == batch[..n] + [batch[n]];
  }

  lemma LookAtOurs(now: State)
    requires BlocksInv(now) && PlacesInv(now) && Enabled(now, Process) && now.receiver.todo[0].ours
    ensures var r, next := now.receiver.todo[0], Step(now, Process);
            && next.receiver.Processing? && next.receiver.todo == now.receiver.todo[1..]
            && SameWindow(now, next) && next.sent == now.sent && next.unanswered == now.unanswered - {r.ref}
            && StatusIs(next, r.ref, r.status)
  {
    ProcessStep(now);
  }

  lemma OthersStay(now: State)
    requires BlocksInv(now) && PlacesInv(now) && Enabled(now, Process) && now.receiver.todo[0].ours
    ensures SameBut(now, Step(now, Process), {now.receiver.todo[0].ref})
  {
    ProcessStep(now);
    var ref, next := now.receiver.todo[0].ref, Step(now, Process);
    forall x, status | x !in {ref} ensures StatusIs(next, x, status) <==> StatusIs(now, x, status) {
      assert x.block != ref.block || x.num != ref.num;
    }
  }

  /** Looking at a report of ours records it, takes its transaction off the unanswered ones and leaves the
      other statuses; looking at a leftover does nothing. */
  lemma LookAtOne(now: State)
    requires BlocksInv(now) && PlacesInv(now) && Enabled(now, Process)
    ensures var r, next := now.receiver.todo[0], Step(now, Process);
            && next.receiver.Processing? && next.receiver.todo == now.receiver.todo[1..]
            && SameWindow(now, next) && next.sent == now.sent
            && next.unanswered == now.unanswered - (if r.ours then {r.ref} else {})
            && (r.ours ==> StatusIs(next, r.ref, r.status))
            && SameBut(now, next, if r.ours then {r.ref} else {})
  {
    if now.receiver.todo[0].ours {
      LookAtOurs(now);
      OthersStay(now);
    } else {
      assert now.unanswered - {} == now.unanswered;
    }
  }

  lemma StillRecorded(now: State, next: State, batch: seq<Report>, n: nat)
    requires n < |batch| && OursDiffer(batch) && Recorded(now, batch[..n])
    requires SameBut(now, next, if batch[n].ours then {batch[n].ref} else {})
    requires batch[n].ours ==> StatusIs(next, batch[n].ref, batch[n].status)
    ensures Recorded(next, batch[..n + 1])
  {
    forall r | r in batch[..n + 1] && r.ours ensures StatusIs(next, r.ref, r.status) {
      var i :| 0 <= i < n + 1 && batch[i] == r;
      if i < n { assert r in batch[..n]; }
    }
  }

  lemma LookNext(s: State, batch: seq<Report>, n: nat, now: State)
    requires BlocksInv(now) && PlacesInv(now) && n < |batch| && LookedAt(s, batch, n, now)
    requires LeftoversGone(s, batch) && OursDiffer(batch)
    ensures Enabled(now, Process) && LookedAt(s, batch, n + 1, Step(now, Process))
  {
    var r := batch[n];
    assert now.receiver.todo[0] == r && now.receiver.todo[1..] == batch[n + 1..];
    assert r in batch && (Held(now, r.ref, r.id) <==> Held(s, r.ref, r.id));
    LookAtOne(now);
    StillRecorded(now, Step(now, Process), batch, n);
    OurRefsSnoc(batch, n);
  }

  lemma RunKeepsPlaces(states: seq<State>, events: seq<Event>, k: nat)
    requires Run(states, events) && k < |states|
    ensures BlocksInv(states[k]) && PlacesInv(states[k])
  {
    RunKeepsInv(states, events, k);
  }

  lemma LookStep(states: seq<State>, events: seq<Event>, s: State, batch: seq<Report>, n: nat)
    returns (states': seq<State>, events': seq<Event>)
    requires Run(states, events) && n < |batch| && LookedAt(s, batch, n, states[|events|])
    requires LeftoversGone(s, batch) && OursDiffer(batch)
    ensures Run(states', events') && events' == events + [Process] && states'[0] == states[0]
    ensures LookedAt(s, batch, n + 1, states'[|events'|])
  {
    RunKeepsPlaces(states, events, |events|);
    LookNext(s, batch, n, states[|events|]);
    states', events' := Snoc(states, events, Process);
  }

  function Repeated(e: Event, n: nat): seq<Event> {
    seq(n, _ => e)
  }

  lemma {:induction false} LookAll(states: seq<State>, events: seq<Event>, s: State, batch: seq<Report>, n: nat)
    returns (states': seq<State>, events': seq<Event>)
    requires Run(states, events) && LookedAt(s, batch, 0, states[|events|]) && n <= |batch|
    requires LeftoversGone(s, batch) && OursDiffer(batch)
    ensures Run(states', events') && events' == events + Repeated(Process, n) && states'[0] == states[0]
    ensures LookedAt(s, batch, n, states'[|events'|])
  {
    if n == 0 {
      states', events' := states, events;
      assert events + Repeated(Process, 0) == events;
    } else {
      states', events' := LookAll(states, events, s, batch, n - 1);
      states', events' := LookStep(states', events', s, batch, n - 1);
      assert events + Repeated(Process, n - 1) + [Process] == events + Repeated(Process, n);
    }
  }

  lemma FirstLook(s: State, batch: seq<Report>)
    requires Enabled(s, Deliver(batch))
    ensures LookedAt(s, batch, 0, Step(s, Deliver(batch))) && OursDiffer(batch)
  {
    assert batch[..0] == [] && batch[0..] == batch && OurRefs([]) == {};
    assert s.unanswered - {} == s.unanswered;
  }

  lemma OursAreUnanswered(s: State, batch: seq<Report>)
    requires PlacesInv(s) && Enabled(s, Deliver(batch))
    ensures |s.unanswered - OurRefs(batch)| == |s.unanswered| - |OurRefs(batch)|
  {
    assert OurRefs(batch) <= s.sent <= s.unanswered;
  }

  lemma ReleaseEnds(s: State, batch: seq<Report>, now: State)
    requires LookedAt(s, batch, |batch|, now)
    ensures Enabled(now, Release)
    ensures var s', ours := Step(now, Release), OurRefs(batch);
            && Recorded(s', batch) && SameBut(s, s', ours)
            && s'.unanswered == s.unanswered - ours && s'.sent == s.sent - ours && s'.receiver.Released?
  {
    assert batch[..|batch|] == batch;
  }

  /** Whenever the coordinator may report a batch, and its leftovers name nothing in flight, the session can
      take it in, look at every report and release: then exactly the transactions it reported have their status
      and are unanswered no more, and as many slots are free again. */
  lemma BatchIsRecorded(states: seq<State>, events: seq<Event>, batch: seq<Report>)
    returns (states': seq<State>, events': seq<Event>)
    requires Run(states, events) && Enabled(states[|events|], Deliver(batch)) && LeftoversGone(states[|events|], batch)
    ensures Run(states', events')
    ensures events' == events + [Deliver(batch)] + Repeated(Process, |batch|) + [Release]
    ensures var s, s', ours := states[|events|], states'[|events'|], OurRefs(batch);
            && Recorded(s', batch) && SameBut(s, s', ours)
            && s'.unanswered == s.unanswered - ours && s'.sent == s.sent - ours && s'.receiver.Released?
            && s'.available == s.available + |ours|
  {
    ghost var s := states[|events|];
    FirstLook(s, batch);
    states', events' := Snoc(states, events, Deliver(batch));
    states', events' := LookAll(states', events', s, batch, |batch|);
    ReleaseEnds(s, batch, states'[|events'|]);
    states', events' := Snoc(states', events', Release);
    SlotsAccount(states, events, |events|);
    SlotsAccount(states', events', |events'|);
    RunKeepsPlaces(states, events, |events|);
    OursAreUnanswered(s, batch);
    SameLimit(states, events, |events|);
    SameLimit(states', events', |events'|);
  }

  lemma {:induction false} SameLimit(states: seq<State>, events: seq<Event>, k: nat)
    requires Run(states, events) && k < |states|
    ensures states[k].limit == states[0].limit
  {
    if k > 0 {
      SameLimit(states, events, k - 1);
      assert Taken(states, events, k - 1);
    }
  }

  // ---------------------------------------------------------------------
  // Coming to rest.

  /** A step the session takes by itself; blocks, reports and feedback come from outside. */
  predicate Inner(e: Event) {
    !e.TakeBlock? && !e.Deliver? && !e.Feedback?
  }

  function SenderWork(sender: Sender): nat {
    match sender
    case Ready => 0
    case Got(_) => 7
    case Registered(_) => 6
    case Checked(_) => 5
    case Emitting(_) => 4
    case Sending(_) => 3
    case Failed => 0
  }

  function ReceiverWork(receiver: Receiver): nat {
    match receiver
    case Processing(todo, _) => 3 + |todo|
    case Released => 2
    case Committing => 1
    case _ => 0
  }

  function TodoWork(todo: seq<Action>): nat {
    if todo == [] then 0 else
      (match todo[0] case Drain => 1 case Submit(_) => 10 case Enqueue(_) => 9) + TodoWork(todo[1..])
  }

  /** What is left to do without anything new from outside. */
  function Work(s: State): int {
    TodoWork(s.todo) + 8 * |s.queue| + SenderWork(s.sender) + ReceiverWork(s.receiver) + s.start + |s.blocks| - s.next
  }

  lemma MapperWorks(s: State, e: Event)
    requires Enabled(s, e) && (e.DrainDone? || e.Acquire? || e.Write?)
    ensures Work(Step(s, e)) < Work(s)
  {
    if e.Acquire? {
      var s' := Step(s, e);
      assert s'.todo[1..] == s.todo[1..];
    }
  }

  lemma SenderWorks(s: State, e: Event)
    requires BlocksInv(s) && PlacesInv(s) && OrderInv(s) && Enabled(s, e)
    requires e.ReadSegment? || e.Register? || e.Check? || e.Send?
    ensures Work(Step(s, e)) < Work(s)
  {
    if e.Register? { RegisterStep(s); }
  }

  lemma ReceiverWorks(s: State, e: Event)
    requires BlocksInv(s) && PlacesInv(s) && Enabled(s, e) && (e.Process? || e.Release?)
    ensures Work(Step(s, e)) < Work(s)
  {
    if e.Process? { ProcessStep(s); }
  }

  lemma LockWorks(s: State, e: Event)
    requires Enabled(s, e) && (e.Lock? || e.Emit? || e.Unlock?)
    ensures Work(Step(s, e)) < Work(s)
  {
  }

  lemma WorkIsPositive(s: State)
    requires BlocksInv(s)
    ensures Work(s) >= 0
  {
  }

  /** Every inner step of a session uses up work, so between two events from outside there are only finitely
      many. */
  lemma StepsRunOut(states: seq<State>, events: seq<Event>, k: nat)
    requires Run(states, events) && k < |events| && Inner(events[k])
    ensures 0 <= Work(states[k + 1]) < Work(states[k])
  {
    RunKeepsInv(states, events, k);
    RunKeepsInv(states, events, k + 1);
    assert Taken(states, events, k);
    WorkIsPositive(states[k + 1]);
    var s, e := states[k], events[k];
    if e.DrainDone? || e.Acquire? || e.Write? {
      MapperWorks(s, e);
    } else if e.ReadSegment? || e.Register? || e.Check? || e.Send? {
      SenderWorks(s, e);
    } else if e.Process? || e.Release? {
      ReceiverWorks(s, e);
    } else {
      LockWorks(s, e);
    }
  }

  ghost predicate AtRest(s: State) {
    forall e :: Inner(e) ==> !Enabled(s, e)
  }

  /** The next report is a leftover that names a transaction in flight, which no leftover does. */
  predicate BeforeLeftover(s: State) {
    && s.receiver.Processing? && s.receiver.todo != []
    && !s.receiver.todo[0].ours && Held(s, s.receiver.todo[0].ref, s.receiver.todo[0].id)
  }

  /** Whoever holds the lock goes on or gives it back. */
  lemma HolderMoves(s: State)
    requires WatchedInv(s) && s.lock.Some?
    ensures Enabled(s, Emit(s.lock.value)) || Enabled(s, Unlock(s.lock.value))
  {
    assert Emits(s, s.lock.value);
  }

  lemma NobodyEmits(s: State)
    requires WatchedInv(s) && AtRest(s)
    ensures s.lock.None?
  {
    if s.lock.Some? { HolderMoves(s); }
  }

  lemma RestingSender(s: State)
    requires WatchedInv(s) && OrderInv(s) && AtRest(s)
    ensures s.sender.Ready? && s.queue == [] && s.lock.None?
  {
    NobodyEmits(s);
    assert Inner(Register) && Inner(Check) && Inner(Send) && Inner(ReadSegment) && Inner(Lock(BySender));
    assert !Enabled(s, Register) && !Enabled(s, Check) && !Enabled(s, Send) && !Enabled(s, ReadSegment);
    assert !Enabled(s, Lock(BySender));
  }

  lemma RestingReceiver(s: State)
    requires WatchedInv(s) && OrderInv(s) && AtRest(s)
    ensures s.receiver.Idle? || s.receiver.Ended? || BeforeLeftover(s)
  {
    RestingSender(s);
    assert !Enabled(s, Process) && !Enabled(s, Release) && !Enabled(s, Lock(ByReceiver));
    assert !Enabled(s, Emit(ByReceiver)) && !Enabled(s, Unlock(ByReceiver));
  }

  lemma RestingMapper(s: State)
    requires AtRest(s)
    ensures s.todo == [] || (s.todo[0].Drain? && s.available < s.limit) || (s.todo[0].Submit? && s.available < 1)
  {
    assert !Enabled(s, DrainDone) && !Enabled(s, Acquire) && !Enabled(s, Write);
  }

  /** A session at rest has sent all it has slots for and waits for the coordinator: every segment behind is
      short of slots, nothing is held back, and the oldest block in flight has a pending transaction. */
  lemma RestMeansWaiting(states: seq<State>, events: seq<Event>, k: nat)
    requires Run(states, events) && k < |states| && AtRest(states[k])
    ensures var s := states[k];
            && s.sender.Ready? && s.queue == [] && s.lock.None?
            && (s.receiver.Idle? || s.receiver.Ended? || BeforeLeftover(s))
            && (s.todo == [] || (s.todo[0].Drain? && s.available < s.limit) || (s.todo[0].Submit? && s.available < 1))
            && (s.receiver.Idle? ==> s.unanswered == s.sent && (s.count == 0 || PendingOf(s, s.next) > 0))
            && (s.receiver.Idle? && s.todo != [] ==> s.sent != {})
  {
    RunKeepsInv(states, events, k);
    var s := states[k];
    RestingSender(s);
    RestingReceiver(s);
    RestingMapper(s);
    if s.receiver.Idle? {
      EmitsInOrder(states, events, k);
      RestingPlaces(states, events, k);
    }
  }

  lemma RestingPlaces(states: seq<State>, events: seq<Event>, k: nat)
    requires Run(states, events) && k < |states| && AtRest(states[k]) && states[k].receiver.Idle?
    requires states[k].sender.Ready? && states[k].queue == []
    requires states[k].todo == [] || !states[k].todo[0].Enqueue?
    ensures states[k].unanswered == states[k].sent
  {
    var s := states[k];
    assert Holding(s) == 0 && OurTodo(s) == [];
    forall r ensures r in s.unanswered <==> r in s.sent {
      PendingIsSomewhere(states, events, k, r);
    }
  }
}
