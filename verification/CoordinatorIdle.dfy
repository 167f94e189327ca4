/** The coordinator's count of transactions in progress, its queue of results, and the call that tells a
    reconnecting sidecar whether everything submitted has its result. */
module TxStatusQueues {
  import opened Common
  import opened TxTracking

  datatype StatusBatch = StatusBatch(statuses: seq<TxStatus>, feedback: Option<Height>)

  /** Feedback stands for one transaction without a status. */
  function TxCount(batch: StatusBatch): nat {
    |batch.statuses| + if batch.feedback.Some? then 1 else 0
  }

  function Sum(batches: seq<StatusBatch>): nat {
    if batches == [] then 0 else TxCount(batches[0]) + Sum(batches[1..])
  }

  lemma {:induction false} SumSnoc(batches: seq<StatusBatch>, batch: StatusBatch)
    ensures Sum(batches + [batch]) == Sum(batches) + TxCount(batch)
  {
    if batches == [] {
      assert batches + [batch] == [batch];
    } else {
      assert (batches + [batch])[1..] == batches[1..] + [batch];
      SumSnoc(batches[1..], batch);
    }
  }

  lemma {:induction false} SumWithout(batches: seq<StatusBatch>, j: nat)
    requires j < |batches|
    ensures Sum(batches[..j] + batches[j + 1..]) + TxCount(batches[j]) == Sum(batches)
  {
    if j == 0 {
      assert batches[..j] + batches[j + 1..] == batches[1..];
    } else {
      SumWithout(batches[1..], j - 1);
      assert (batches[..j] + batches[j + 1..])[1..] == batches[1..][..j - 1] + batches[1..][j..];
    }
  }

  class TxStatusQueue {
    const size: nat
    var ch: seq<StatusBatch>
    var count: int

    constructor (size: nat)
      ensures this.size == size && ch == [] && count == 0
    {
      this.size, ch, count := size, [], 0;
    }

    /** Counts before it enqueues, and takes the count back when it is cancelled. */
    method Write(batch: StatusBatch, cancelled: bool) returns (ok: bool)
      modifies this`ch, this`count
      ensures ok <==> !cancelled && |old(ch)| < size
      ensures ch == old(ch) + if ok then [batch] else []
      ensures count - Sum(ch) == old(count) - Sum(old(ch))
    {
      if cancelled { return false; }
      var n := TxCount(batch);
      count := count + n;
      if |ch| >= size {
        count := count - n;
        return false;
      }
      SumSnoc(ch, batch);
      ch := ch + [batch];
      ok := true;
    }

    method Read(cancelled: bool) returns (batch: Option<StatusBatch>)
      modifies this`ch, this`count
      ensures batch == if cancelled || old(ch) == [] then None else Some(old(ch)[0])
      ensures ch == if batch.None? then old(ch) else old(ch)[1..]
      ensures count - Sum(ch) == old(count) - Sum(old(ch))
    {
      if cancelled || ch == [] { return None; }
      batch := Some(ch[0]);
      ch := ch[1..];
      count := count - TxCount(batch.value);
    }

    method Drain() returns (discarded: nat)
      modifies this`ch, this`count
      ensures ch == [] && discarded == Sum(old(ch))
      ensures count == old(count) - discarded
    {
      discarded := 0;
      while ch != []
        invariant discarded + Sum(ch) == Sum(old(ch)) && count == old(count)
        decreases |ch|
      {
        discarded := discarded + TxCount(ch[0]);
        ch := ch[1..];
      }
      count := count - discarded;
    }
  }
}

/** Everyone at once: the stream's two goroutines, any number of writers, and the idle call, at the grain
    of one atomic operation. */
module IdleHandshake {
  import opened Common
  import opened TxTracking
  import opened TxStatusQueues

  /** What holds streamActive, and how far it got. got is read off the channel and not yet taken off the
      queue's count; counted is taken off it and not yet off the number in progress. */
  datatype Holder =
    | Nobody
    | Stream(got: nat, counted: nat)
    | Draining(got: nat)
    | Drained(counted: nat)
    | Settled
    | Loaded(inProgress: int)

  /** pipeline counts the transactions whose result is not produced yet; writing holds the batches that
      are counted but not in the channel yet. answer is what the last idle call returned. */
  datatype State = State(
    pipeline: nat, writing: seq<StatusBatch>, ch: seq<StatusBatch>, count: int, inProgress: int,
    holder: Holder, answer: Option<bool>)

  datatype Event =
    | StartStream | ReceiveBlock(txs: nat, rejected: nat) | Read | SubCount | SubProgress | EndStream
    | Produce(batch: StatusBatch) | Enqueue(j: nat)
    | StartIdle | DrainOne | DrainEnd | SubDrained | LoadProgress | LoadCount

  predicate Enabled(s: State, size: nat, e: Event) {
    match e
    case StartStream => s.holder.Nobody?
    case ReceiveBlock(_, _) => s.holder.Stream?
    case Read => s.holder == Stream(0, 0) && s.ch != []
    case SubCount => s.holder.Stream? && s.holder.got > 0
    case SubProgress => s.holder.Stream? && s.holder.counted > 0
    case EndStream => s.holder == Stream(0, 0)
    case Produce(batch) => TxCount(batch) <= s.pipeline
    case Enqueue(j) => j < |s.writing| && |s.ch| < size
    case StartIdle => s.holder.Nobody?
    case DrainOne => s.holder.Draining? && s.ch != []
    case DrainEnd => s.holder.Draining? && s.ch == []
    case SubDrained => s.holder.Drained?
    case LoadProgress => s.holder.Settled?
    case LoadCount => s.holder.Loaded?
  }

  function Step(s: State, size: nat, e: Event): State
    requires Enabled(s, size, e)
  {
    match e
    case StartStream => s.(holder := Stream(0, 0))
    case ReceiveBlock(txs, rejected) =>
      s.(pipeline := s.pipeline + txs + rejected, inProgress := s.inProgress + txs + rejected)
    case Read => s.(ch := s.ch[1..], holder := Stream(TxCount(s.ch[0]), 0))
    case SubCount => s.(count := s.count - s.holder.got, holder := Stream(0, s.holder.got))
    case SubProgress => s.(inProgress := s.inProgress - s.holder.counted, holder := Stream(s.holder.got, 0))
    case EndStream => s.(holder := Nobody)
    case Produce(batch) =>
      s.(pipeline := s.pipeline - TxCount(batch), count := s.count + TxCount(batch), writing := s.writing + [batch])
    case Enqueue(j) => s.(writing := s.writing[..j] + s.writing[j + 1..], ch := s.ch + [s.writing[j]])
    case StartIdle => s.(holder := Draining(0))
    case DrainOne => s.(ch := s.ch[1..], holder := Draining(s.holder.got + TxCount(s.ch[0])))
    case DrainEnd => s.(count := s.count - s.holder.got, holder := Drained(s.holder.got))
    case SubDrained => s.(inProgress := s.inProgress - s.holder.counted, holder := Settled)
    case LoadProgress => s.(holder := Loaded(s.inProgress))
    case LoadCount => s.(holder := Nobody, answer := Some(s.holder.inProgress == s.count))
  }

  function Got(h: Holder): nat {
    match h
    case Stream(got, _) => got
    case Draining(got) => got
    case _ => 0
  }

  function Counted(h: Holder): nat {
    match h
    case Stream(_, counted) => counted
    case Drained(counted) => counted
    case _ => 0
  }

  ghost predicate Inv(s: State) {
    && s.count == Sum(s.writing) + Sum(s.ch) + Got(s.holder)
    && s.inProgress == s.pipeline + s.count + Counted(s.holder)
    && (s.holder.Loaded? ==> s.holder.inProgress == s.inProgress)
    && (s.holder.Stream? ==> s.holder.got == 0 || s.holder.counted == 0)
  }

  lemma WriterKeepsInv(s: State, size: nat, e: Event)
    requires Inv(s) && Enabled(s, size, e) && (e.Produce? || e.Enqueue?)
    ensures Inv(Step(s, size, e))
  {
    match e
    case Produce(batch) => SumSnoc(s.writing, batch);
    case Enqueue(j) =>
      SumWithout(s.writing, j);
      SumSnoc(s.ch, s.writing[j]);
  }

  lemma StepKeepsInv(s: State, size: nat, e: Event)
    requires Inv(s) && Enabled(s, size, e)
    ensures Inv(Step(s, size, e))
  {
    if e.Produce? || e.Enqueue? { WriterKeepsInv(s, size, e); }
  }

  predicate Taken(states: seq<State>, size: nat, events: seq<Event>, i: nat) {
    i < |events| && i + 1 < |states| && Enabled(states[i], size, events[i]) &&
      states[i + 1] == Step(states[i], size, events[i])
  }

  ghost predicate Run(states: seq<State>, size: nat, events: seq<Event>) {
    && |states| == |events| + 1
    && states[0] == State(0, [], [], 0, 0, Nobody, None)
    && forall i :: 0 <= i < |events| ==> Taken(states, size, events, i)
  }

  lemma {:induction false} RunKeepsInv(states: seq<State>, size: nat, events: seq<Event>, k: nat)
    requires Run(states, size, events) && k < |states|
    ensures Inv(states[k])
  {
    if k > 0 {
      RunKeepsInv(states, size, events, k - 1);
      assert Taken(states, size, events, k - 1);
      StepKeepsInv(states[k - 1], size, events[k - 1]);
    }
  }

  /** In every reachable state the number in progress is what is still in the pipeline, plus the queue's
      count, plus what was read and not subtracted yet, so it never falls below the count nor that below
      zero; and the idle call answers true exactly when no transaction still waits for its result. */
  lemma CountersAgree(states: seq<State>, size: nat, events: seq<Event>, k: nat)
    requires Run(states, size, events) && k < |states|
    ensures var s := states[k];
            && s.inProgress == s.pipeline + s.count + Counted(s.holder)
            && s.inProgress >= s.count >= Sum(s.writing) + Sum(s.ch) >= 0
            && (k < |events| && events[k].LoadCount? ==>
                  states[k + 1].answer == Some(s.pipeline == 0) && states[k + 1].pipeline == s.pipeline)
  {
    RunKeepsInv(states, size, events, k);
    if k < |events| { assert Taken(states, size, events, k); }
  }

  /** e takes the run one step further. */
  lemma RunSnoc(states: seq<State>, size: nat, events: seq<Event>, e: Event)
    returns (states': seq<State>, events': seq<Event>)
    requires Run(states, size, events) && Enabled(states[|events|], size, e)
    ensures Run(states', size, events') && |events'| == |events| + 1 && events'[|events|] == e
    ensures states'[|events'|] == Step(states[|events|], size, e)
  {
    states', events' := states + [Step(states[|events|], size, e)], events + [e];
    forall i | 0 <= i < |events'| ensures Taken(states', size, events', i) {
      assert i < |events| ==> Taken(states, size, events, i);
    }
  }

  // ---------------------------------------------------------------------
  // What an idle answer says about the queue.

  predicate NothingIn(batches: seq<StatusBatch>) {
    forall b :: b in batches ==> TxCount(b) == 0
  }

  lemma {:induction false} ZeroSum(batches: seq<StatusBatch>)
    ensures Sum(batches) == 0 <==> NothingIn(batches)
  {
    if batches != [] {
      ZeroSum(batches[1..]);
      assert batches == [batches[0]] + batches[1..];
    }
  }

  /** When the call answers idle, no transaction has its result in the queue or on the way into it exactly
      when the number in progress that the call loaded was zero. */
  lemma IdleMeansDrainedIff(states: seq<State>, size: nat, events: seq<Event>, k: nat)
    requires Run(states, size, events) && k < |events| && events[k].LoadCount?
    requires states[k + 1].answer == Some(true)
    ensures states[k].holder.Loaded?
    ensures NothingIn(states[k + 1].writing) && NothingIn(states[k + 1].ch) <==> states[k].holder.inProgress == 0
  {
    RunKeepsInv(states, size, events, k);
    assert Taken(states, size, events, k);
    ZeroSum(states[k].writing);
    ZeroSum(states[k].ch);
  }

  /** As the receiver of a validator-committer does, no batch is written that carries nothing. */
  predicate WritesResults(events: seq<Event>) {
    forall i :: 0 <= i < |events| && events[i].Produce? ==> TxCount(events[i].batch) > 0
  }

  predicate AllCarry(batches: seq<StatusBatch>) {
    forall b :: b in batches ==> TxCount(b) > 0
  }

  lemma {:induction false} QueuedCarry(states: seq<State>, size: nat, events: seq<Event>, k: nat)
    requires Run(states, size, events) && WritesResults(events) && k < |states|
    ensures AllCarry(states[k].writing) && AllCarry(states[k].ch)
  {
    if k > 0 {
      QueuedCarry(states, size, events, k - 1);
      assert Taken(states, size, events, k - 1);
    }
  }

  /** Then an idle answer means an empty queue, and no writer about to fill it, exactly when that number
      was zero. */
  lemma IdleMeansEmptyIff(states: seq<State>, size: nat, events: seq<Event>, k: nat)
    requires Run(states, size, events) && WritesResults(events) && k < |events| && events[k].LoadCount?
    requires states[k + 1].answer == Some(true)
    ensures states[k].holder.Loaded?
    ensures states[k + 1].writing == [] && states[k + 1].ch == [] <==> states[k].holder.inProgress == 0
  {
    IdleMeansDrainedIff(states, size, events, k);
    QueuedCarry(states, size, events, k + 1);
    var s := states[k + 1];
    assert s.writing != [] ==> s.writing[0] in s.writing;
    assert s.ch != [] ==> s.ch[0] in s.ch;
  }

  /** A stream takes in n transactions and ends; the idle call drains the empty queue. */
  lemma SettledWith(size: nat, n: nat) returns (states: seq<State>, events: seq<Event>)
    ensures Run(states, size, events)
    ensures states[|events|] == State(n, [], [], 0, n, Settled, None)
  {
    states, events := [State(0, [], [], 0, 0, Nobody, None)], [];
    states, events := RunSnoc(states, size, events, StartStream);
    states, events := RunSnoc(states, size, events, ReceiveBlock(n, 0));
    states, events := RunSnoc(states, size, events, EndStream);
    states, events := RunSnoc(states, size, events, StartIdle);
    states, events := RunSnoc(states, size, events, DrainEnd);
    states, events := RunSnoc(states, size, events, SubDrained);
  }

  /** It can be above zero: a writer may count and enqueue its batch between the drain and the comparison,
      and every batch can be the one that is then left behind. */
  lemma IdleWithQueuedResult(size: nat, batch: StatusBatch) returns (states: seq<State>, events: seq<Event>)
    requires size > 0
    ensures Run(states, size, events) && events != [] && events[|events| - 1].LoadCount?
    ensures states[|events|].answer == Some(true) && states[|events|].ch == [batch]
  {
    states, events := SettledWith(size, TxCount(batch));
    states, events := RunSnoc(states, size, events, Produce(batch));
    states, events := RunSnoc(states, size, events, Enqueue(0));
    states, events := RunSnoc(states, size, events, LoadProgress);
    states, events := RunSnoc(states, size, events, LoadCount);
  }

  // ---------------------------------------------------------------------
  // Every transaction is counted once.

  /** The transactions a batch answers: one for each status, and one more when it carries feedback, which
      stands for a checkpoint without a status. */
  lemma TxCountIsAnswers(statuses: seq<TxStatus>, height: Height)
    ensures TxCount(StatusBatch(statuses, None)) == |statuses|
    ensures TxCount(StatusBatch(statuses, Some(height))) == |statuses| + 1
    ensures TxCount(StatusBatch([], Some(height))) == 1
  {
  }

  function AmountIn(events: seq<Event>): nat {
    if events == [] then 0 else
      var n := |events| - 1;
      AmountIn(events[..n]) + if events[n].ReceiveBlock? then events[n].txs + events[n].rejected else 0
  }

  function AmountOut(events: seq<Event>): nat {
    if events == [] then 0 else
      var n := |events| - 1;
      AmountOut(events[..n]) +
        if events[n].Produce? then
          |events[n].batch.statuses| + if events[n].batch.feedback.Some? then 1 else 0
        else 0
  }

  /** In every run, what was received, accepted and rejected transactions alike, is what still waits for its
      result plus what has one. */
  lemma {:induction false} ReceivedIsCounted(states: seq<State>, size: nat, events: seq<Event>, k: nat)
    requires Run(states, size, events) && k < |states|
    ensures AmountIn(events[..k]) == states[k].pipeline + AmountOut(events[..k])
  {
    if k > 0 {
      ReceivedIsCounted(states, size, events, k - 1);
      assert Taken(states, size, events, k - 1);
      assert events[..k][..k - 1] == events[..k - 1];
    }
  }

  /** A stream hands on the oldest batch of the queue and takes its transactions off both counters. */
  lemma StreamHandsOn(states: seq<State>, size: nat, events: seq<Event>)
    returns (states': seq<State>, events': seq<Event>)
    requires Run(states, size, events)
    requires states[|events|].holder == Stream(0, 0) && states[|events|].ch != [] && TxCount(states[|events|].ch[0]) > 0
    ensures Run(states', size, events')
    ensures var s, n := states[|events|], TxCount(states[|events|].ch[0]);
            states'[|events'|] == s.(ch := s.ch[1..], count := s.count - n, inProgress := s.inProgress - n)
  {
    states', events' := RunSnoc(states, size, events, Read);
    states', events' := RunSnoc(states', size, events', SubCount);
    states', events' := RunSnoc(states', size, events', SubProgress);
  }

  /** Whoever holds the stream, a result that is due gets into the queue as long as there is room. */
  lemma WriterDelivers(states: seq<State>, size: nat, events: seq<Event>, batch: StatusBatch)
    returns (states': seq<State>, events': seq<Event>)
    requires Run(states, size, events)
    requires TxCount(batch) <= states[|events|].pipeline && |states[|events|].ch| < size
    ensures Run(states', size, events')
    ensures var s, n := states[|events|], TxCount(batch);
            states'[|events'|] == s.(pipeline := s.pipeline - n, count := s.count + n, ch := s.ch + [batch])
  {
    ghost var s := states[|events|];
    states', events' := RunSnoc(states, size, events, Produce(batch));
    states', events' := RunSnoc(states', size, events', Enqueue(|s.writing|));
    assert (s.writing + [batch])[..|s.writing|] + (s.writing + [batch])[|s.writing| + 1..] == s.writing;
  }

  lemma {:induction false} DrainSome(states: seq<State>, size: nat, events: seq<Event>, n: nat)
    returns (states': seq<State>, events': seq<Event>)
    requires Run(states, size, events) && states[|events|].holder == Draining(0) && n <= |states[|events|].ch|
    ensures Run(states', size, events')
    ensures var s := states[|events|];
            states'[|events'|] == s.(ch := s.ch[n..], holder := Draining(Sum(s.ch[..n])))
  {
    ghost var s := states[|events|];
    if n == 0 {
      states', events' := states, events;
      assert s.ch[0..] == s.ch && s.ch[..0] == [];
    } else {
      states', events' := DrainSome(states, size, events, n - 1);
      states', events' := RunSnoc(states', size, events', DrainOne);
      assert s.ch[n - 1..][1..] == s.ch[n..] && s.ch[n - 1..][0] == s.ch[n - 1];
      assert s.ch[..n] == s.ch[..n - 1] + [s.ch[n - 1]];
      SumSnoc(s.ch[..n - 1], s.ch[n - 1]);
    }
  }

  /** The idle call on its own empties the queue, takes what was in it off both counters, and answers whether
      nothing waits for its result. */
  lemma IdleCallAlone(states: seq<State>, size: nat, events: seq<Event>)
    returns (states': seq<State>, events': seq<Event>)
    requires Run(states, size, events) && states[|events|].holder.Nobody?
    ensures Run(states', size, events')
    ensures var s, n := states[|events|], Sum(states[|events|].ch);
            states'[|events'|] == s.(ch := [], count := s.count - n, inProgress := s.inProgress - n,
                                     answer := Some(s.pipeline == 0))
  {
    ghost var s := states[|events|];
    RunKeepsInv(states, size, events, |events|);
    states', events' := RunSnoc(states, size, events, StartIdle);
    states', events' := DrainSome(states', size, events', |s.ch|);
    assert s.ch[|s.ch|..] == [] && s.ch[..|s.ch|] == s.ch;
    states', events' := RunSnoc(states', size, events', DrainEnd);
    states', events' := RunSnoc(states', size, events', SubDrained);
    states', events' := RunSnoc(states', size, events', LoadProgress);
    states', events' := RunSnoc(states', size, events', LoadCount);
  }

  // ---------------------------------------------------------------------
  // The queue keeps its order.

  ghost function PutIn(states: seq<State>, events: seq<Event>, k: nat): seq<StatusBatch>
    requires k <= |events| && k <= |states|
  {
    if k == 0 then [] else
      var s, e := states[k - 1], events[k - 1];
      PutIn(states, events, k - 1) + if e.Enqueue? && e.j < |s.writing| then [s.writing[e.j]] else []
  }

  ghost function TakenOut(states: seq<State>, events: seq<Event>, k: nat): seq<StatusBatch>
    requires k <= |events| && k <= |states|
  {
    if k == 0 then [] else
      var s, e := states[k - 1], events[k - 1];
      TakenOut(states, events, k - 1) + if (e.Read? || e.DrainOne?) && s.ch != [] then [s.ch[0]] else []
  }

  /** What was put into the queue is, in this order, what was taken out of it and what is still in it. */
  lemma {:induction false} QueueIsFifo(states: seq<State>, size: nat, events: seq<Event>, k: nat)
    requires Run(states, size, events) && k < |states|
    ensures PutIn(states, events, k) == TakenOut(states, events, k) + states[k].ch
  {
    if k > 0 {
      QueueIsFifo(states, size, events, k - 1);
      assert Taken(states, size, events, k - 1);
      var s := states[k - 1];
      assert s.ch != [] ==> s.ch == [s.ch[0]] + s.ch[1..];
    }
  }
}
