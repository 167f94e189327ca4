/** Who owns a transaction node while validator-committers come and go. The senders, the receivers and
    the recovery of every service interleave at the grain of one map operation or one channel operation,
    and a service may answer anything at any time. */
module TxOwnership {
  import opened Common
  import opened TxTracking

  /** Why a node left the tracking map. */
  datatype Answer = ByStatus(node: Node, status: TxStatus) | ByFeedback(node: Node)

  datatype Receiver =
    | Waiting
    | Matching(todo: seq<TxStatus>, feedback: Option<Height>, answers: seq<Answer>)
    | Ready(hasFeedback: bool, answers: seq<Answer>)
    | Freeing(nodes: seq<Node>)

  /** One service: the batch its sender has read but not yet stored, the map, its receiver, and the
      batch its recovery has collected but not yet written back. */
  datatype Vc = Vc(sending: bool, receiving: bool, hand: seq<Node>, tracking: Tracking, receiver: Receiver,
                   collected: seq<Node>)

  /** entered, forwarded and freed are what has passed the borders so far. */
  datatype State = State(queue: seq<seq<Node>>, vcs: seq<Vc>, entered: set<Node>, forwarded: seq<Answer>,
                         freed: seq<Node>)

  datatype Event =
    | Take | Store | EndSend
    | Receive(statuses: seq<TxStatus>, feedback: Option<Height>) | Match | Release | Forward | Free | EndReceive
    | Collect | WriteBack | Restart

  function NodesOf(answers: seq<Answer>): seq<Node> {
    seq(|answers|, i requires 0 <= i < |answers| => answers[i].node)
  }

  // ---------------------------------------------------------------------
  // Steps.

  predicate Enabled(queue: seq<seq<Node>>, vc: Vc, e: Event) {
    match e
    case Take => vc.sending && vc.hand == [] && queue != []
    case Store => vc.hand != []
    case EndSend => vc.sending && vc.hand == []
    case Receive(_, _) => vc.receiving && vc.receiver.Waiting?
    case Match => vc.receiver.Matching? && vc.receiver.todo != []
    case Release => vc.receiver.Matching? && vc.receiver.todo == []
    case Forward => vc.receiver.Ready?
    case Free => vc.receiver.Freeing?
    case EndReceive => vc.receiving && vc.receiver.Waiting?
    case Collect => !vc.sending && !vc.receiving && vc.tracking != map[]
    case WriteBack => vc.collected != []
    case Restart => !vc.sending && !vc.receiving && vc.tracking == map[] && vc.collected == []
  }

  /** What a step does to its own service. Collect hands over the pending nodes in the order given. */
  function After(queue: seq<seq<Node>>, vc: Vc, e: Event, pending: seq<Node>): Vc
    requires Enabled(queue, vc, e)
  {
    match e
    case Take => vc.(hand := queue[0])
    case Store => vc.(hand := vc.hand[1..], tracking := vc.tracking[vc.hand[0].height := vc.hand[0]])
    case EndSend => vc.(sending := false)
    case Receive(statuses, feedback) => vc.(receiver := Matching(statuses, feedback, []))
    case Match =>
      var r, status := vc.receiver, vc.receiver.todo[0];
      if status.height in vc.tracking then
        vc.(tracking := vc.tracking - {status.height},
            receiver := r.(todo := r.todo[1..], answers := r.answers + [ByStatus(vc.tracking[status.height], status)]))
      else vc.(receiver := r.(todo := r.todo[1..]))
    case Release =>
      var r := vc.receiver;
      if r.feedback.Some? && r.feedback.value in vc.tracking then
        vc.(tracking := vc.tracking - {r.feedback.value},
            receiver := Ready(true, r.answers + [ByFeedback(vc.tracking[r.feedback.value])]))
      else vc.(receiver := Ready(r.feedback.Some?, r.answers))
    case Forward =>
      if vc.receiver.answers == [] && !vc.receiver.hasFeedback then vc.(receiver := Waiting)
      else vc.(receiver := Freeing(NodesOf(vc.receiver.answers)))
    case Free => vc.(receiver := Waiting)
    case EndReceive => vc.(receiving := false)
    case Collect => vc.(tracking := map[], collected := vc.collected + pending)
    case WriteBack => vc.(collected := [])
    case Restart => vc.(sending := true, receiving := true)
  }

  /** The Store steps of a service until its hand is empty. */
  function AllStored(vc: Vc): Vc
    decreases |vc.hand|
  {
    if vc.hand == [] then vc else AllStored(After([], vc, Store, []))
  }

  /** They amount to storing the batch as the class does. */
  lemma {:induction false} StepsStoreBatch(vc: Vc)
    ensures AllStored(vc) == vc.(hand := [], tracking := Stored(vc.tracking, vc.hand))
    decreases |vc.hand|
  {
    if vc.hand != [] {
      StepsStoreBatch(After([], vc, Store, []));
      StoredHead(vc.tracking, vc.hand);
    }
  }

  function QueueAfter(queue: seq<seq<Node>>, vc: Vc, e: Event): seq<seq<Node>>
    requires Enabled(queue, vc, e)
  {
    match e
    case Take => queue[1..]
    case WriteBack => queue + [vc.collected]
    case _ => queue
  }

  function ForwardedBy(vc: Vc, e: Event): seq<Answer> {
    if e.Forward? && vc.receiver.Ready? then vc.receiver.answers else []
  }

  function FreedBy(vc: Vc, e: Event): seq<Node> {
    if e.Free? && vc.receiver.Freeing? then vc.receiver.nodes else []
  }

  // ---------------------------------------------------------------------
  // The steps of one service, taken to their end, against the class.

  /** n steps of the same kind, as long as they are possible. */
  function Repeat(vc: Vc, e: Event, n: nat): Vc {
    if n == 0 then vc else
      var before := Repeat(vc, e, n - 1);
      if Enabled([], before, e) then After([], before, e, []) else before
  }

  /** answers carry, in report order, the first status of each reported height that m tracks, and its node. */
  predicate AnswersFor(m: Tracking, matched: seq<TxStatus>, answers: seq<Answer>) {
    |answers| == |matched| && forall i :: 0 <= i < |matched| ==>
      matched[i].height in m && answers[i] == ByStatus(m[matched[i].height], matched[i])
  }

  ghost predicate MatchedUpTo(vc: Vc, statuses: seq<TxStatus>, feedback: Option<Height>, n: nat, now: Vc)
    requires n <= |statuses|
  {
    && now == vc.(tracking := now.tracking, receiver := now.receiver)
    && now.tracking == vc.tracking - Heights(statuses[..n])
    && now.receiver.Matching? && now.receiver.todo == statuses[n..] && now.receiver.feedback == feedback
    && AnswersFor(vc.tracking, Matched(vc.tracking, statuses[..n]), now.receiver.answers)
  }

  lemma MatchNext(vc: Vc, statuses: seq<TxStatus>, feedback: Option<Height>, n: nat, now: Vc)
    requires n < |statuses| && MatchedUpTo(vc, statuses, feedback, n, now)
    ensures Enabled([], now, Match) && MatchedUpTo(vc, statuses, feedback, n + 1, After([], now, Match, []))
  {
    MatchedStep(vc.tracking, statuses, n);
    assert statuses[n..][1..] == statuses[n + 1..] && statuses[n..][0] == statuses[n];
    var h, next := statuses[n].height, After([], now, Match, []);
    assert h in now.tracking <==> Matches(vc.tracking, statuses, n);
    assert vc.tracking - Heights(statuses[..n + 1]) == vc.tracking - Heights(statuses[..n]) - {h};
  }

  lemma {:induction false} StepsMatch(vc: Vc, statuses: seq<TxStatus>, feedback: Option<Height>, n: nat)
    requires vc.receiving && vc.receiver.Waiting? && n <= |statuses|
    ensures MatchedUpTo(vc, statuses, feedback, n, Repeat(After([], vc, Receive(statuses, feedback), []), Match, n))
  {
    var start := After([], vc, Receive(statuses, feedback), []);
    if n == 0 {
      assert statuses[..0] == [] && statuses[0..] == statuses;
      assert vc.tracking - {} == vc.tracking;
    } else {
      StepsMatch(vc, statuses, feedback, n - 1);
      MatchNext(vc, statuses, feedback, n - 1, Repeat(start, Match, n - 1));
    }
  }

  /** The service once it has matched all of an answer. */
  function Received(vc: Vc, statuses: seq<TxStatus>, feedback: Option<Height>): Vc
    requires vc.receiving && vc.receiver.Waiting?
  {
    Repeat(After([], vc, Receive(statuses, feedback), []), Match, |statuses|)
  }

  /** Receiving an answer and matching its statuses one by one takes the reported heights out of the map and
      leaves one answer for each that was tracked. */
  lemma StepsMatchBatch(vc: Vc, statuses: seq<TxStatus>, feedback: Option<Height>)
    requires vc.receiving && vc.receiver.Waiting?
    ensures var now := Received(vc, statuses, feedback);
            && Enabled([], now, Release)
            && now == vc.(tracking := vc.tracking - Heights(statuses), receiver := now.receiver)
            && now.receiver.feedback == feedback
            && AnswersFor(vc.tracking, Matched(vc.tracking, statuses), now.receiver.answers)
  {
    StepsMatch(vc, statuses, feedback, |statuses|);
    assert statuses[..|statuses|] == statuses;
  }

  /** The rest of the answer's way: what feedback names leaves the map too, everything is forwarded, then its
      nodes are freed, and the receiver waits again. As for the class, nothing is forwarded or freed when
      nothing was tracked and there is no feedback. */
  lemma StepsReceiveBatch(vc: Vc, statuses: seq<TxStatus>, feedback: Option<Height>)
    requires vc.receiving && vc.receiver.Waiting?
    ensures var matched := Received(vc, statuses, feedback);
            Enabled([], matched, Release) &&
            var ready := After([], matched, Release, []);
            Enabled([], ready, Forward) &&
            var sent, m := After([], ready, Forward, []), vc.tracking - Heights(statuses);
            && ForwardedBy(ready, Forward) == matched.receiver.answers +
                 (if feedback.Some? && feedback.value in m then [ByFeedback(m[feedback.value])] else [])
            && AnswersFor(vc.tracking, Matched(vc.tracking, statuses), matched.receiver.answers)
            && sent == vc.(tracking := m - (if feedback.Some? then {feedback.value} else {}), receiver := sent.receiver)
            && (if sent.receiver.Waiting? then ForwardedBy(ready, Forward) == [] && feedback.None?
                else && Enabled([], sent, Free) && FreedBy(sent, Free) == NodesOf(ForwardedBy(ready, Forward))
                     && After([], sent, Free, []) == sent.(receiver := Waiting))
  {
    StepsMatchBatch(vc, statuses, feedback);
    var m := vc.tracking - Heights(statuses);
    if feedback.Some? && feedback.value !in m { assert m - {feedback.value} == m; }
    assert m - {} == m;
  }

  /** When the stream of a service ends, recovery puts every tracked node back into the queue, and the service
      starts anew with nothing. */
  lemma StepsRecover(queue: seq<seq<Node>>, vc: Vc, pending: seq<Node>)
    requires vc.sending && vc.receiving && vc.hand == [] && vc.receiver.Waiting? && vc.collected == []
    requires vc.tracking != map[] && WellKeyed(vc.tracking) && Lists(pending, vc.tracking)
    ensures Enabled(queue, vc, EndSend) &&
            var silent := After(queue, vc, EndSend, []);
            Enabled(queue, silent, EndReceive) &&
            var ended := After(queue, silent, EndReceive, []);
            Enabled(queue, ended, Collect) &&
            var collected := After(queue, ended, Collect, pending);
            Enabled(queue, collected, WriteBack) && QueueAfter(queue, collected, WriteBack) == queue + [pending] &&
            var written := After(queue, collected, WriteBack, []);
            Enabled(queue, written, Restart) &&
            After(queue, written, Restart, []) == vc.(tracking := map[])
  {
    var h :| h in vc.tracking;
    assert multiset(pending)[vc.tracking[h]] == Tracks(vc.tracking, vc.tracking[h]) == 1;
    assert [] + pending == pending;
  }

  /** pending lists the tracked nodes, each once. */
  ghost predicate Lists(pending: seq<Node>, m: Tracking) {
    forall n :: multiset(pending)[n] == Tracks(m, n)
  }

  function Tracks(m: Tracking, n: Node): nat {
    if n.height in m && m[n.height] == n then 1 else 0
  }

  ghost predicate VcStep(s: State, s': State, i: nat, e: Event, pending: seq<Node>) {
    && i < |s.vcs| && Enabled(s.queue, s.vcs[i], e)
    && (e.Collect? ==> Lists(pending, s.vcs[i].tracking))
    && s' == State(QueueAfter(s.queue, s.vcs[i], e),
                   s.vcs[i := After(s.queue, s.vcs[i], e, pending)],
                   s.entered,
                   s.forwarded + ForwardedBy(s.vcs[i], e),
                   s.freed + FreedBy(s.vcs[i], e))
  }

  /** The dependency graph releases a batch of new nodes. A transaction is not submitted again at a
      height whose earlier submission has no answer yet. */
  ghost predicate Enter(s: State, s': State, batch: seq<Node>) {
    && (forall i, j :: 0 <= i < j < |batch| ==> batch[i].height != batch[j].height)
    && (forall n :: n in batch ==> n !in s.entered)
    && (forall n, m :: n in batch && Unanswered(s, m) > 0 ==> n.height != m.height)
    && s' == s.(queue := s.queue + [batch], entered := s.entered + (set n | n in batch))
  }

  ghost predicate Next(s: State, s': State) {
    (exists batch :: Enter(s, s', batch)) || (exists i, e, pending :: VcStep(s, s', i, e, pending))
  }

  ghost predicate Init(s: State) {
    && s.queue == [] && s.entered == {} && s.forwarded == [] && s.freed == []
    && forall i :: 0 <= i < |s.vcs| ==> s.vcs[i] == Vc(true, true, [], map[], Waiting, [])
  }

  // ---------------------------------------------------------------------
  // Where nodes are.

  datatype Place = Pending | Answered | Leaving

  /** How often a service holds n. */
  function Holds(vc: Vc, p: Place, n: Node): nat {
    match p
    case Pending => multiset(vc.hand)[n] + Tracks(vc.tracking, n) + multiset(vc.collected)[n]
    case Answered =>
      if vc.receiver.Matching? || vc.receiver.Ready? then multiset(NodesOf(vc.receiver.answers))[n] else 0
    case Leaving => if vc.receiver.Freeing? then multiset(vc.receiver.nodes)[n] else 0
  }

  function Total(vcs: seq<Vc>, p: Place, n: Node): nat {
    if vcs == [] then 0 else Total(vcs[..|vcs| - 1], p, n) + Holds(vcs[|vcs| - 1], p, n)
  }

  function Queued(queue: seq<seq<Node>>, n: Node): nat {
    if queue == [] then 0 else multiset(queue[0])[n] + Queued(queue[1..], n)
  }

  function Unanswered(s: State, n: Node): nat {
    Queued(s.queue, n) + Total(s.vcs, Pending, n)
  }

  lemma {:induction false} TotalUpdate(vcs: seq<Vc>, i: nat, vc: Vc, p: Place, n: Node)
    requires i < |vcs|
    ensures Total(vcs[i := vc], p, n) + Holds(vcs[i], p, n) == Total(vcs, p, n) + Holds(vc, p, n)
  {
    var k := |vcs| - 1;
    if i == k {
      assert vcs[i := vc][..k] == vcs[..k];
    } else {
      assert vcs[i := vc][..k] == vcs[..k][i := vc];
      TotalUpdate(vcs[..k], i, vc, p, n);
    }
  }

  lemma {:induction false} TotalHas(vcs: seq<Vc>, i: nat, p: Place, n: Node)
    requires i < |vcs|
    ensures Holds(vcs[i], p, n) <= Total(vcs, p, n)
  {
    if i < |vcs| - 1 { TotalHas(vcs[..|vcs| - 1], i, p, n); }
  }

  lemma {:induction false} QueuedSnoc(queue: seq<seq<Node>>, batch: seq<Node>, n: Node)
    ensures Queued(queue + [batch], n) == Queued(queue, n) + multiset(batch)[n]
  {
    if queue == [] {
      assert queue + [batch] == [batch];
    } else {
      QueuedSnoc(queue[1..], batch, n);
      assert (queue + [batch])[1..] == queue[1..] + [batch];
    }
  }

  // ---------------------------------------------------------------------
  // The invariant.

  /** n is in exactly one place once it entered; what was forwarded is freed or about to be. */
  ghost predicate OnePlace(s: State, n: Node) {
    && Unanswered(s, n) + Total(s.vcs, Answered, n) + Total(s.vcs, Leaving, n) + multiset(s.freed)[n] ==
       (if n in s.entered then 1 else 0)
    && multiset(NodesOf(s.forwarded))[n] == Total(s.vcs, Leaving, n) + multiset(s.freed)[n]
  }

  ghost predicate DistinctHeights(s: State) {
    forall n, m :: Unanswered(s, n) > 0 && Unanswered(s, m) > 0 && n != m ==> n.height != m.height
  }

  predicate Faithful(answers: seq<Answer>) {
    forall a :: a in answers && a.ByStatus? ==> a.status.height == a.node.height
  }

  predicate VcOk(vc: Vc) {
    && WellKeyed(vc.tracking)
    && (vc.receiver.Matching? || vc.receiver.Ready? ==> Faithful(vc.receiver.answers))
  }

  ghost predicate Inv(s: State) {
    && (forall n :: OnePlace(s, n))
    && DistinctHeights(s)
    && Faithful(s.forwarded)
    && forall i :: 0 <= i < |s.vcs| ==> VcOk(s.vcs[i])
  }

  /** A node about to be stored finds its height free. */
  lemma HeightIsFree(s: State, i: nat)
    requires Inv(s) && i < |s.vcs| && s.vcs[i].hand != []
    ensures s.vcs[i].hand[0].height !in s.vcs[i].tracking
  {
    var vc, n := s.vcs[i], s.vcs[i].hand[0];
    TotalHas(s.vcs, i, Pending, n);
    assert n in multiset(vc.hand);
    assert OnePlace(s, n);
    forall h | h in vc.tracking ensures h != n.height {
      TotalHas(s.vcs, i, Pending, vc.tracking[h]);
    }
  }

  /** What a step moves, as a balance of its own service: unanswered nodes only leave by being
      answered or written to the queue, answered ones by being forwarded, forwarded ones by being freed. */
  ghost predicate Balanced(queue: seq<seq<Node>>, vc: Vc, e: Event, queue': seq<seq<Node>>, now: Vc, n: Node) {
    && Queued(queue', n) + Holds(now, Pending, n) <= Queued(queue, n) + Holds(vc, Pending, n)
    && Queued(queue', n) + Holds(now, Pending, n) + Holds(now, Answered, n) +
         multiset(NodesOf(ForwardedBy(vc, e)))[n] ==
       Queued(queue, n) + Holds(vc, Pending, n) + Holds(vc, Answered, n)
    && Holds(now, Leaving, n) + multiset(FreedBy(vc, e))[n] ==
         Holds(vc, Leaving, n) + multiset(NodesOf(ForwardedBy(vc, e)))[n]
  }

  predicate Legal(vc: Vc, e: Event) {
    e.Store? && vc.hand != [] ==> vc.hand[0].height !in vc.tracking
  }

  function One(n: Node, x: Node): nat {
    if n == x then 1 else 0
  }

  lemma TracksStore(m: Tracking, x: Node, n: Node)
    requires WellKeyed(m) && x.height !in m
    ensures Tracks(m[x.height := x], n) == Tracks(m, n) + One(n, x)
  {
  }

  lemma TracksDelete(m: Tracking, h: Height, n: Node)
    requires WellKeyed(m) && h in m
    ensures Tracks(m - {h}, n) + One(n, m[h]) == Tracks(m, n)
  {
  }

  lemma CountCons(s: seq<Node>, n: Node)
    requires s != []
    ensures multiset(s)[n] == One(n, s[0]) + multiset(s[1..])[n]
  {
    assert s == [s[0]] + s[1..];
  }

  lemma CountAnswer(answers: seq<Answer>, a: Answer, n: Node)
    ensures multiset(NodesOf(answers + [a]))[n] == multiset(NodesOf(answers))[n] + One(n, a.node)
  {
    assert NodesOf(answers + [a]) == NodesOf(answers) + [a.node];
  }

  lemma StoreBalanced(queue: seq<seq<Node>>, vc: Vc, n: Node)
    requires Enabled(queue, vc, Store) && VcOk(vc) && Legal(vc, Store)
    ensures Balanced(queue, vc, Store, queue, After(queue, vc, Store, []), n)
  {
    TracksStore(vc.tracking, vc.hand[0], n);
    CountCons(vc.hand, n);
  }

  lemma MatchBalanced(queue: seq<seq<Node>>, vc: Vc, n: Node)
    requires Enabled(queue, vc, Match) && VcOk(vc)
    ensures Balanced(queue, vc, Match, queue, After(queue, vc, Match, []), n)
  {
    var r, status := vc.receiver, vc.receiver.todo[0];
    if status.height in vc.tracking {
      TracksDelete(vc.tracking, status.height, n);
      CountAnswer(r.answers, ByStatus(vc.tracking[status.height], status), n);
    }
  }

  lemma ReleaseBalanced(queue: seq<seq<Node>>, vc: Vc, n: Node)
    requires Enabled(queue, vc, Release) && VcOk(vc)
    ensures Balanced(queue, vc, Release, queue, After(queue, vc, Release, []), n)
  {
    var r := vc.receiver;
    if r.feedback.Some? && r.feedback.value in vc.tracking {
      TracksDelete(vc.tracking, r.feedback.value, n);
      CountAnswer(r.answers, ByFeedback(vc.tracking[r.feedback.value]), n);
    }
  }

  lemma ReceiveBalanced(queue: seq<seq<Node>>, vc: Vc, e: Event, n: Node)
    requires Enabled(queue, vc, e) && e.Receive?
    ensures Balanced(queue, vc, e, queue, After(queue, vc, e, []), n)
  {
    assert NodesOf([]) == [];
  }

  lemma ForwardBalanced(queue: seq<seq<Node>>, vc: Vc, n: Node)
    requires Enabled(queue, vc, Forward)
    ensures Balanced(queue, vc, Forward, queue, After(queue, vc, Forward, []), n)
  {
    var now := After(queue, vc, Forward, []);
    if vc.receiver.answers == [] { assert NodesOf(vc.receiver.answers) == []; }
    assert Holds(now, Pending, n) == Holds(vc, Pending, n) && Holds(now, Answered, n) == 0 &&
      Holds(vc, Leaving, n) == 0;
  }

  lemma FreeBalanced(queue: seq<seq<Node>>, vc: Vc, n: Node)
    requires Enabled(queue, vc, Free)
    ensures Balanced(queue, vc, Free, queue, After(queue, vc, Free, []), n)
  {
    assert NodesOf([]) == [];
  }

  lemma QueueBalanced(queue: seq<seq<Node>>, vc: Vc, e: Event, pending: seq<Node>, n: Node)
    requires Enabled(queue, vc, e) && (e.Take? || e.Collect? || e.WriteBack?)
    requires e.Collect? ==> Lists(pending, vc.tracking)
    ensures Balanced(queue, vc, e, QueueAfter(queue, vc, e), After(queue, vc, e, pending), n)
  {
    if e.WriteBack? { QueuedSnoc(queue, vc.collected, n); }
  }

  lemma StepBalanced(queue: seq<seq<Node>>, vc: Vc, e: Event, pending: seq<Node>, n: Node)
    requires Enabled(queue, vc, e) && VcOk(vc) && Legal(vc, e)
    requires e.Collect? ==> Lists(pending, vc.tracking)
    ensures Balanced(queue, vc, e, QueueAfter(queue, vc, e), After(queue, vc, e, pending), n)
  {
    match e
    case Store => StoreBalanced(queue, vc, n);
    case Match => MatchBalanced(queue, vc, n);
    case Release => ReleaseBalanced(queue, vc, n);
    case Receive(_, _) => ReceiveBalanced(queue, vc, e, n);
    case Forward => ForwardBalanced(queue, vc, n);
    case Free => FreeBalanced(queue, vc, n);
    case Take => QueueBalanced(queue, vc, e, pending, n);
    case Collect => QueueBalanced(queue, vc, e, pending, n);
    case WriteBack => QueueBalanced(queue, vc, e, pending, n);
    case _ =>
  }

  lemma StepOk(queue: seq<seq<Node>>, vc: Vc, e: Event, pending: seq<Node>)
    requires Enabled(queue, vc, e) && VcOk(vc)
    ensures VcOk(After(queue, vc, e, pending))
  {
  }

  lemma OnePlaceKept(s: State, s': State, i: nat, e: Event, pending: seq<Node>, n: Node)
    requires OnePlace(s, n) && VcStep(s, s', i, e, pending) && VcOk(s.vcs[i]) && Legal(s.vcs[i], e)
    ensures OnePlace(s', n) && Unanswered(s', n) <= Unanswered(s, n)
  {
    var vc, now := s.vcs[i], After(s.queue, s.vcs[i], e, pending);
    StepBalanced(s.queue, vc, e, pending, n);
    BalanceAddsUp(s, s', i, now, e, n);
  }

  /** The balance of one service carries over to the whole. */
  lemma BalanceAddsUp(s: State, s': State, i: nat, now: Vc, e: Event, n: Node)
    requires OnePlace(s, n) && i < |s.vcs| && Balanced(s.queue, s.vcs[i], e, s'.queue, now, n)
    requires s'.vcs == s.vcs[i := now] && s'.entered == s.entered
    requires s'.forwarded == s.forwarded + ForwardedBy(s.vcs[i], e) && s'.freed == s.freed + FreedBy(s.vcs[i], e)
    ensures OnePlace(s', n) && Unanswered(s', n) <= Unanswered(s, n)
  {
    TotalUpdate(s.vcs, i, now, Pending, n);
    TotalUpdate(s.vcs, i, now, Answered, n);
    TotalUpdate(s.vcs, i, now, Leaving, n);
    ForwardedCount(s.forwarded, ForwardedBy(s.vcs[i], e), n);
  }

  lemma ForwardedCount(a: seq<Answer>, b: seq<Answer>, n: Node)
    ensures multiset(NodesOf(a + b))[n] == multiset(NodesOf(a))[n] + multiset(NodesOf(b))[n]
  {
    assert NodesOf(a + b) == NodesOf(a) + NodesOf(b);
  }

  lemma StepKeepsInv(s: State, s': State, i: nat, e: Event, pending: seq<Node>)
    requires Inv(s) && VcStep(s, s', i, e, pending)
    ensures Inv(s')
  {
    if e.Store? { HeightIsFree(s, i); }
    StepOk(s.queue, s.vcs[i], e, pending);
    forall n ensures OnePlace(s', n) && Unanswered(s', n) <= Unanswered(s, n) {
      OnePlaceKept(s, s', i, e, pending, n);
    }
    assert DistinctHeights(s');
  }

  lemma EnterKeepsInv(s: State, s': State, batch: seq<Node>)
    requires Inv(s) && Enter(s, s', batch)
    ensures Inv(s')
  {
    forall n ensures OnePlace(s', n) && Unanswered(s', n) == Unanswered(s, n) + if n in batch then 1 else 0 {
      assert OnePlace(s, n);
      QueuedSnoc(s.queue, batch, n);
      DistinctBatch(batch, n);
    }
  }

  lemma {:induction false} DistinctBatch(batch: seq<Node>, n: Node)
    requires forall i, j :: 0 <= i < j < |batch| ==> batch[i].height != batch[j].height
    ensures multiset(batch)[n] == if n in batch then 1 else 0
  {
    if batch != [] {
      var front, last := batch[..|batch| - 1], batch[|batch| - 1];
      assert batch == front + [last];
      DistinctBatch(front, n);
    }
  }

  // ---------------------------------------------------------------------
  // Whole runs.

  ghost predicate Follows(states: seq<State>, i: nat) {
    i + 1 < |states| && Next(states[i], states[i + 1])
  }

  ghost predicate Run(states: seq<State>) {
    && states != [] && Init(states[0])
    && forall i :: 0 <= i < |states| - 1 ==> Follows(states, i)
  }

  lemma InitInv(s: State)
    requires Init(s)
    ensures Inv(s)
  {
    forall n ensures OnePlace(s, n) && Unanswered(s, n) == 0 {
      forall p ensures Total(s.vcs, p, n) == 0 { NothingHeld(s.vcs, p, n); }
    }
  }

  lemma {:induction false} NothingHeld(vcs: seq<Vc>, p: Place, n: Node)
    requires forall i :: 0 <= i < |vcs| ==> vcs[i] == Vc(true, true, [], map[], Waiting, [])
    ensures Total(vcs, p, n) == 0
  {
    if vcs != [] { NothingHeld(vcs[..|vcs| - 1], p, n); }
  }

  lemma {:induction false} RunKeepsInv(states: seq<State>)
    requires Run(states)
    ensures Inv(states[|states| - 1])
  {
    if |states| == 1 {
      InitInv(states[0]);
    } else {
      var front := states[..|states| - 1];
      forall i | 0 <= i < |front| - 1 ensures Follows(front, i) { assert Follows(states, i); }
      RunKeepsInv(front);
      var s, s' := front[|front| - 1], states[|states| - 1];
      assert Follows(states, |states| - 2);
      if batch :| Enter(s, s', batch) {
        EnterKeepsInv(s, s', batch);
      } else {
        var i, e, pending :| VcStep(s, s', i, e, pending);
        StepKeepsInv(s, s', i, e, pending);
      }
    }
  }

  /** In every run each node that entered is in exactly one place, a node that did not is nowhere, its
      result is forwarded at most once, it is freed at most once, and only after its result was forwarded. */
  lemma OwnedOnce(states: seq<State>, n: Node)
    requires Run(states)
    ensures var s := states[|states| - 1];
            && Queued(s.queue, n) + Total(s.vcs, Pending, n) + Total(s.vcs, Answered, n) + Total(s.vcs, Leaving, n)
               + multiset(s.freed)[n] == (if n in s.entered then 1 else 0)
            && multiset(s.freed)[n] <= multiset(NodesOf(s.forwarded))[n] <= 1
            && forall a :: a in s.forwarded && a.ByStatus? ==> a.status.height == a.node.height
  {
    RunKeepsInv(states);
    assert OnePlace(states[|states| - 1], n);
  }

  // ---------------------------------------------------------------------
  // The assumption on heights is needed.

  /** Storing keeps every node of the map exactly when no other node is tracked at the same height. */
  lemma StoreKeepsAllIff(m: Tracking, n: Node)
    requires WellKeyed(m)
    ensures (forall x :: Tracks(m, x) <= Tracks(m[n.height := n], x)) <==> n.height !in m || m[n.height] == n
  {
    if n.height in m && m[n.height] != n {
      assert Tracks(m, m[n.height]) == 1 && Tracks(m[n.height := n], m[n.height]) == 0;
    }
  }
}
