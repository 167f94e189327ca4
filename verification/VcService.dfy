/** The validator-committer end to end, and what it promises for a whole batch. */
module VcService {
  import opened Common
  import opened VcTypes
  import opened VcSerial
  import opened VcPrepare
  import opened VcDatabase
  import opened VcCommit
  import opened VcPlacement
  import opened VcInvariant
  import opened VcSuccess
  import opened VcLaws

  // ---------------------------------------------------------------------
  // Nobody is lost: every transaction stays listed, or is the withheld checkpoint.

  predicate Writer(p: Plan) {
    p.prelim.Some? || exists op :: op in p.ops && !op.ReadOp?
  }

  /** A checkpoint transaction does nothing but insert into the checkpoint namespace. */
  predicate CheckpointsAlone(plans: map<TxId, Plan>) {
    forall id, op :: id in plans && op in plans[id].ops && op.loc.ns == CHECKPOINT_NS ==>
      forall op2 :: op2 in plans[id].ops ==> op2.loc.ns == CHECKPOINT_NS && IsKind(op2, Inserted)
  }

  predicate Fed(b: Batch, id: TxId) {
    b.feedback.Some? && b.feedback.value.txId == id
  }

  /** No other trace of the transaction is left in the batch: whatever is pruned later, it is not. */
  ghost predicate Detached(b: Batch, id: TxId) {
    && id !in b.nonBlind && id !in b.blind && id !in b.invalid
    && (forall cr :: Registered(b.readToTxIDs, cr, id) ==> cr.nsId == CHECKPOINT_NS)
    && (forall i :: i != id ==> At(b.newWrites, i, CHECKPOINT_NS) == [])
    && (forall i :: At(b.blind, i, CHECKPOINT_NS) == [])
  }

  ghost predicate Accounted(b: Batch, plans: map<TxId, Plan>) {
    && (forall id :: id in plans ==> id in b.heights && b.heights[id] == plans[id].height)
    && (forall cr, id :: Registered(b.readToTxIDs, cr, id) ==> id in plans)
    && (forall id :: id in ListedIds(b) ==> id in plans && !Fed(b, id))
    && (forall id :: id in plans && Writer(plans[id]) && !Fed(b, id) ==> id in ListedIds(b))
    && (b.checkpoint.Some? ==> b.feedback.None? && Detached(b, b.checkpoint.value.txId)
                               && b.checkpoint.value.txId in plans
                               && b.checkpoint.value.height == plans[b.checkpoint.value.txId].height)
    && (b.feedback.Some? ==> Detached(b, b.feedback.value.txId) && b.feedback.value.txId !in b.newWrites
                             && b.feedback.value.txId in plans
                             && b.feedback.value.height == plans[b.feedback.value.txId].height)
  }

  lemma AccountedPruned(b: Batch, plans: map<TxId, Plan>, bad: set<TxId>, status: Status)
    requires Accounted(b, plans) && forall id :: id in bad ==> id in plans && !Fed(b, id)
    ensures Accounted(Pruned(b, bad, status), plans)
  {
    var now := Pruned(b, bad, status);
    PrunedListed(b, bad, status);
    assert forall id :: Fed(now, id) == Fed(b, id);
    if now.checkpoint.Some? { ApartPruned(b, b.checkpoint.value.txId, bad, status); }
    if now.feedback.Some? { ApartPruned(b, b.feedback.value.txId, bad, status); }
  }

  lemma PrunedListed(b: Batch, bad: set<TxId>, status: Status)
    ensures ListedIds(Pruned(b, bad, status)) == ListedIds(b) + bad
  {
  }

  lemma ApartPruned(b: Batch, id: TxId, bad: set<TxId>, status: Status)
    requires Detached(b, id) && id !in bad
    ensures Detached(Pruned(b, bad, status), id)
  {
    PrunedAt(b.newWrites, bad);
    PrunedAt(b.blind, bad);
  }

  lemma AccountedSame(b: Batch, plans: map<TxId, Plan>, now: Batch)
    requires Accounted(b, plans) && ListedIds(now) == ListedIds(b)
    requires now == b.(nonBlind := now.nonBlind, newWrites := now.newWrites, blind := now.blind)
    requires b.checkpoint.Some? ==> Detached(now, b.checkpoint.value.txId)
    requires b.feedback.Some? ==> Detached(now, b.feedback.value.txId) && b.feedback.value.txId !in now.newWrites
    ensures Accounted(now, plans)
  {
    assert forall id :: Fed(now, id) == Fed(b, id);
  }

  lemma PlacedListed(b: Batch, states: States, nonBlind: TxWrites, newWrites: TxWrites)
    requires Placed(states, b.nonBlind, b.blind, b.newWrites, nonBlind, newWrites)
    ensures ListedIds(b.(nonBlind := nonBlind, newWrites := newWrites, blind := map[])) == ListedIds(b)
  {
  }

  lemma AccountedPlaced(b: Batch, plans: map<TxId, Plan>, states: States, nonBlind: TxWrites, newWrites: TxWrites)
    requires Accounted(b, plans) && Placed(states, b.nonBlind, b.blind, b.newWrites, nonBlind, newWrites)
    requires Compact(b.nonBlind) && Compact(b.blind) && Compact(b.newWrites) && Compact(nonBlind) && Compact(newWrites)
    ensures Accounted(b.(nonBlind := nonBlind, newWrites := newWrites, blind := map[]), plans)
  {
    PlacedListed(b, states, nonBlind, newWrites);
    if b.checkpoint.Some? { ApartPlaced(b, b.checkpoint.value.txId, states, nonBlind, newWrites); }
    if b.feedback.Some? { ApartPlaced(b, b.feedback.value.txId, states, nonBlind, newWrites); }
    AccountedSame(b, plans, b.(nonBlind := nonBlind, newWrites := newWrites, blind := map[]));
  }

  lemma ApartPlaced(b: Batch, id: TxId, states: States, nonBlind: TxWrites, newWrites: TxWrites)
    requires Detached(b, id) && Placed(states, b.nonBlind, b.blind, b.newWrites, nonBlind, newWrites)
    requires Compact(b.nonBlind) && Compact(b.blind) && Compact(b.newWrites) && Compact(nonBlind) && Compact(newWrites)
    ensures Detached(b.(nonBlind := nonBlind, newWrites := newWrites, blind := map[]), id)
    ensures id !in b.newWrites ==> id !in newWrites
  {
    HasKey(nonBlind, id);
    HasKey(newWrites, id);
    HasKey(b.newWrites, id);
    forall ns ensures At(nonBlind, id, ns) == [] {
      assert At(b.nonBlind, id, ns) == [] && At(b.blind, id, ns) == [];
      assert At(nonBlind, id, ns) == At(b.nonBlind, id, ns) + Present(states, ns, At(b.blind, id, ns));
    }
    forall i | i != id ensures At(newWrites, i, CHECKPOINT_NS) == [] {
      assert At(newWrites, i, CHECKPOINT_NS) ==
        At(b.newWrites, i, CHECKPOINT_NS) + Absent(states, CHECKPOINT_NS, At(b.blind, i, CHECKPOINT_NS));
    }
    forall ns ensures id !in b.newWrites ==> At(newWrites, id, ns) == [] {
      assert At(b.blind, id, ns) == [];
      assert At(newWrites, id, ns) == At(b.newWrites, id, ns) + Absent(states, ns, At(b.blind, id, ns));
    }
  }

  lemma WithheldIsClear(b: Batch, plans: map<TxId, Plan>)
    requires Accounted(b, plans) && b.feedback.Some?
    ensures forall i :: At(b.newWrites, i, CHECKPOINT_NS) == []
  {
  }

  lemma {:induction ops} NoWritesOf(kind: Kind, ops: seq<Op>, ns: Ns)
    requires forall op :: op in ops ==> !(IsKind(op, kind) && op.loc.ns == ns)
    ensures WritesOf(kind, ops, ns) == []
  {
  }

  /** An insert conflict is on a namespace that still has inserts, so it never hits the withheld
      checkpoint. */
  lemma HitsAccounted(b: Batch, plans: map<TxId, Plan>, states: States, nw: NsWrites, conflicts: map<Ns, seq<Read>>)
    requires Accounted(b, plans) && Groups(nw, b.newWrites) && ReportsAll(conflicts, states, nw)
    ensures forall id :: id in Hits(b.readToTxIDs, conflicts) ==> id in plans && !Fed(b, id)
  {
    if b.feedback.Some? { WithheldIsClear(b, plans); }
    forall id | id in Hits(b.readToTxIDs, conflicts) ensures id in plans && !Fed(b, id) {
      var ns, r :| Reports(conflicts, ns, r) && Registered(b.readToTxIDs, NewCmpRead(ns, r.key, r.version), id);
      assert InsertConflict(states, nw, ns, r.key);
      var w :| w in nw[ns] && w.key == r.key;
      assert In(nw, ns, w);
      var i :| w in At(b.newWrites, i, ns);
    }
  }

  lemma WriterListed(v: View, plans: map<TxId, Plan>, id: TxId)
    requires PreparedFrom(v, plans) && id in plans
    ensures Writer(plans[id]) <==> id in v.nonBlind || id in v.blind || id in v.newWrites || id in v.invalid
  {
    HasKey(v.nonBlind, id);
    HasKey(v.blind, id);
    HasKey(v.newWrites, id);
    var ops := OpsAt(plans, id);
    forall kind, tw | HoldsWrites(tw, plans, kind)
      ensures (exists ns :: At(tw, id, ns) != []) <==> exists op :: op in ops && IsKind(op, kind)
    {
      KindListed(tw, plans, kind, id);
    }
    if op :| op in ops && !op.ReadOp? {
      assert IsKind(op, Versioned) || IsKind(op, Inserted) || IsKind(op, Blind);
    }
  }

  lemma KindListed(tw: TxWrites, plans: map<TxId, Plan>, kind: Kind, id: TxId)
    requires HoldsWrites(tw, plans, kind)
    ensures (exists ns :: At(tw, id, ns) != []) <==> exists op :: op in OpsAt(plans, id) && IsKind(op, kind)
  {
    var ops := OpsAt(plans, id);
    if ns :| At(tw, id, ns) != [] {
      var w := At(tw, id, ns)[0];
      assert w in WritesOf(kind, ops, ns);
      WritesOfElems(kind, ops, ns, w);
    }
    if op :| op in ops && IsKind(op, kind) {
      WritesOfElems(kind, ops, op.loc.ns, WriteOf(op));
      assert At(tw, id, op.loc.ns) == WritesOf(kind, ops, op.loc.ns);
    }
  }

  lemma NotInPlans(v: View, plans: map<TxId, Plan>, id: TxId)
    requires PreparedFrom(v, plans) && id !in plans
    ensures id !in v.nonBlind && id !in v.blind && id !in v.newWrites && id !in v.invalid
  {
    HasKey(v.nonBlind, id);
    HasKey(v.blind, id);
    HasKey(v.newWrites, id);
    KindListed(v.nonBlind, plans, Versioned, id);
    KindListed(v.blind, plans, Blind, id);
    KindListed(v.newWrites, plans, Inserted, id);
  }

  lemma CheckpointStarts(v: View, plans: map<TxId, Plan>, b: Batch, id: TxId)
    requires PreparedFrom(v, plans) && CheckpointsAlone(plans)
    requires b == Batch(v.nonBlind, v.blind, v.newWrites, v.readToTxIDs, v.invalid, v.heights, b.checkpoint, None)
    requires HasCheckpoint(v.newWrites, id) && forall i :: HasCheckpoint(v.newWrites, i) ==> i == id
    ensures id in plans && Detached(b, id)
  {
    var ops := OpsAt(plans, id);
    var w := At(v.newWrites, id, CHECKPOINT_NS)[0];
    assert w in WritesOf(Inserted, ops, CHECKPOINT_NS);
    WritesOfElems(Inserted, ops, CHECKPOINT_NS, w);
    var op :| op in ops && IsKind(op, Inserted) && op.loc.ns == CHECKPOINT_NS;
    assert forall op2 :: op2 in ops ==> op2.loc.ns == CHECKPOINT_NS && IsKind(op2, Inserted);
    HasKey(v.nonBlind, id);
    HasKey(v.blind, id);
    KindListed(v.nonBlind, plans, Versioned, id);
    KindListed(v.blind, plans, Blind, id);
    forall i ensures At(b.blind, i, CHECKPOINT_NS) == [] {
      assert forall o :: o in OpsAt(plans, i) && o.loc.ns == CHECKPOINT_NS ==> IsKind(o, Inserted);
      NoWritesOf(Blind, OpsAt(plans, i), CHECKPOINT_NS);
    }
    forall i | i != id ensures At(b.newWrites, i, CHECKPOINT_NS) == [] {
      assert !HasCheckpoint(v.newWrites, i);
    }
  }

  lemma StartsAccounted(v: View, plans: map<TxId, Plan>, b: Batch)
    requires PreparedFrom(v, plans) && CheckpointsAlone(plans)
    requires b == Batch(v.nonBlind, v.blind, v.newWrites, v.readToTxIDs, v.invalid, v.heights, b.checkpoint, None)
    requires b.checkpoint.Some? ==>
               && HasCheckpoint(v.newWrites, b.checkpoint.value.txId)
               && b.checkpoint.value.txId in v.heights
               && b.checkpoint.value.height == v.heights[b.checkpoint.value.txId]
               && forall i :: HasCheckpoint(v.newWrites, i) ==> i == b.checkpoint.value.txId
    ensures Accounted(b, plans)
  {
    forall id ensures id in ListedIds(b) <==> id in plans && Writer(plans[id]) {
      if id in plans { WriterListed(v, plans, id); } else { NotInPlans(v, plans, id); }
    }
    if b.checkpoint.Some? { CheckpointStarts(v, plans, b, b.checkpoint.value.txId); }
  }

  // ---------------------------------------------------------------------
  // Validator.

  /** One query for each namespace; seen[ns] is what the tables held when ns was checked. */
  method ValidateReads(db: Database, nsToReads: map<Ns, seq<Read>>)
    returns (conflicts: map<Ns, seq<Read>>, ghost seen: map<Ns, States>)
    modifies db
    ensures seen.Keys == nsToReads.Keys
    ensures forall ns, r :: Reports(conflicts, ns, r) <==>
              ns in nsToReads && r in nsToReads[ns] && StaleRead(seen[ns], ns, r)
    ensures old(Quiet(db.others)) ==>
              && Quiet(db.others) && db.Contents() == old(db.Contents())
              && forall ns :: ns in nsToReads ==> seen[ns] == db.states
  {
    conflicts, seen := map[], map[];
    var todo := nsToReads.Keys;
    while todo != {}
      invariant todo <= nsToReads.Keys && seen.Keys == nsToReads.Keys - todo
      invariant forall ns, r :: Reports(conflicts, ns, r) <==>
                  ns in nsToReads && ns !in todo && r in nsToReads[ns] && StaleRead(seen[ns], ns, r)
      invariant old(Quiet(db.others)) ==>
                  && Quiet(db.others) && db.Contents() == old(db.Contents())
                  && forall ns :: ns in seen ==> seen[ns] == db.states
      decreases todo
    {
      var ns :| ns in todo;
      todo := todo - {ns};
      db.LetOthersWrite();
      var stale := db.ValidateNamespaceReads(ns, nsToReads[ns]);
      seen := seen[ns := db.states];
      ghost var was := conflicts;
      conflicts := conflicts[ns := stale];
      assert forall n, r :: Reports(conflicts, n, r) <==> if n == ns then r in stale else Reports(was, n, r);
    }
  }

  /** The snapshot request of a batch is refused: gate is the status it then gets. */
  predicate SnapshotRefused(b: Batch, rows: map<TxId, Row>, gate: Option<Status>, id: TxId) {
    |b.newWrites| == 1 && id in b.newWrites && At(b.newWrites, id, SNAPSHOT_NS) != [] && id !in rows && gate.Some?
  }

  lemma OnlyKey<K, V>(m: map<K, V>, k: K)
    requires |m| == 1 && k in m
    ensures m.Keys == {k}
  {
    assert |m.Keys - {k}| == 0;
  }

  method RejectSnapshotIfPriorNotCheckpointed(v: ValidatedTransactions, db: Database, gate: Option<Status>)
    modifies v, db
    ensures old(Quiet(db.others)) ==> Quiet(db.others) && db.Contents() == old(db.Contents())
    ensures (forall id :: !SnapshotRefused(old(v.Fields()), db.txStatus, gate, id)) ==> v.Fields() == old(v.Fields())
    ensures forall id :: SnapshotRefused(old(v.Fields()), db.txStatus, gate, id) ==>
              v.Fields() == Pruned(old(v.Fields()), {id}, gate.value)
  {
    if |v.newWrites| != 1 { return; }
    var incoming :| incoming in v.newWrites;
    OnlyKey(v.newWrites, incoming);
    if At(v.newWrites, incoming, SNAPSHOT_NS) == [] { return; }
    db.LetOthersWrite();
    if incoming in db.txStatus || gate.None? { return; }
    assert SnapshotRefused(v.Fields(), db.txStatus, gate, incoming);
    v.UpdateInvalidTxs([incoming], gate.value);
    assert IdSet([incoming]) == {incoming};
  }

  function Withheld(b: Batch, hold: bool): Batch
    requires b.checkpoint.Some?
  {
    var cp := b.checkpoint.value;
    b.(newWrites := b.newWrites - {cp.txId}, checkpoint := None,
       feedback := Some(Feedback(hold, cp.txId, cp.height, cp.snapshotBlockNum)))
  }

  method RejectCheckpointIfNotVerified(v: ValidatedTransactions, db: Database, verdict: Verdict)
    modifies v, db
    ensures old(Quiet(db.others)) ==> Quiet(db.others) && db.Contents() == old(db.Contents())
    ensures var b := old(v.Fields());
            v.Fields() ==
              if b.checkpoint.None? || b.checkpoint.value.txId in db.txStatus || verdict.Accept? then b
              else if verdict.Reject? then Pruned(b, {b.checkpoint.value.txId}, verdict.status)
              else Withheld(b, verdict.hold)
  {
    if v.checkpoint.None? { return; }
    var cp := v.checkpoint.value;
    db.LetOthersWrite();
    if cp.txId in db.txStatus { return; }
    match verdict {
      case Accept =>
      case Reject(status) =>
        v.UpdateInvalidTxs([cp.txId], status);
        assert IdSet([cp.txId]) == {cp.txId};
      case Withhold(hold) =>
        v.newWrites := v.newWrites - {cp.txId};
        v.checkpoint := None;
        v.feedback := Some(Feedback(hold, cp.txId, cp.height, cp.snapshotBlockNum));
    }
  }

  lemma AccountedWithheld(b: Batch, plans: map<TxId, Plan>, hold: bool)
    requires Accounted(b, plans) && b.checkpoint.Some?
    ensures Accounted(Withheld(b, hold), plans)
  {
    var cp := b.checkpoint.value.txId;
    var now := Withheld(b, hold);
    PrunedAt(b.newWrites, {cp});
    assert forall id :: id in ListedIds(now) <==> id in ListedIds(b) && id != cp;
    assert Detached(now, cp);
  }

  // ---------------------------------------------------------------------
  // Committer.

  datatype Answer = Reply(statuses: seq<TxStatus>, feedback: Option<Feedback>) | Failure

  /** Every transaction with something to commit is answered once, at its own height, by a status or
      by the one checkpoint feedback, and nothing else is answered. */
  ghost predicate ExactlyOnce(plans: map<TxId, Plan>, statuses: seq<TxStatus>, feedback: Option<Feedback>) {
    && DistinctIds(statuses)
    && (forall s :: s in statuses ==> s.id in plans && s.height == plans[s.id].height)
    && (feedback.Some? ==> feedback.value.txId in plans && feedback.value.height == plans[feedback.value.txId].height)
    && (forall id :: id in plans && Writer(plans[id]) ==>
          (Answered(statuses, id) <==> !(feedback.Some? && feedback.value.txId == id)))
    && (forall s :: s in statuses ==> !(feedback.Some? && feedback.value.txId == s.id))
  }

  predicate Answered(statuses: seq<TxStatus>, id: TxId) {
    exists s :: s in statuses && s.id == id
  }

  lemma CorrectedOnce(b: Batch, plans: map<TxId, Plan>, statuses: seq<TxStatus>, rows: map<TxId, Row>, r: seq<TxStatus>)
    requires Accounted(b, plans) && StatusesOf(b, statuses) && AllCorrected(rows, statuses, r)
    ensures ExactlyOnce(plans, r, b.feedback)
  {
    assert forall i :: 0 <= i < |r| ==> r[i].id == statuses[i].id && r[i].height == statuses[i].height;
    forall s | s in r ensures s.id in plans && s.height == plans[s.id].height && !Fed(b, s.id) {
      var i :| 0 <= i < |r| && r[i] == s;
      assert statuses[i] in statuses;
    }
    forall id | id in plans && Writer(plans[id]) ensures Answered(r, id) <==> !Fed(b, id) {
      if !Fed(b, id) {
        assert id in ListedIds(b);
        var s :| s in statuses && s.id == id;
        var i :| 0 <= i < |statuses| && statuses[i] == s;
        assert r[i] in r && r[i].id == id;
      }
    }
  }

  /** The conditions the rest of the system guarantees for a batch without system transactions. */
  ghost predicate Calm(b: Batch, plans: map<TxId, Plan>, db: Db) {
    && WellFormed(plans) && Fine(b, plans, db)
    && (forall id :: id in plans <==> id in ListedIds(b))
    && (forall id :: id in plans ==> id in b.heights && b.heights[id] == plans[id].height)
  }

  lemma CalmListed(b: Batch, plans: map<TxId, Plan>, bad: set<TxId>, status: Status)
    requires forall id :: id in plans <==> id in ListedIds(b)
    requires forall id :: id in bad ==> id in plans
    ensures forall id :: id in plans <==> id in ListedIds(Pruned(b, bad, status))
  {
    PrunedListed(b, bad, status);
  }

  /** Where the loop stands after k rejected attempts: the first rejection leaves no duplicate, the
      second no insert conflict, and there is no third. */
  ghost predicate Progress(b: Batch, plans: map<TxId, Plan>, db: Db, k: nat) {
    && Calm(b, plans, db) && k <= 2
    && (k >= 1 ==> DuplicatesMarked(b, plans, db))
    && (k >= 2 ==> InsertsClear(b, plans, db))
  }

  /** A committed attempt: nothing was left to reject and the database holds the merged effects. */
  ghost predicate Settled(b: Batch, plans: map<TxId, Plan>, before: Db, after: Db) {
    && Calm(b, plans, before) && DuplicatesMarked(b, plans, before) && InsertsClear(b, plans, before)
    && Merged(before, plans, after)
  }

  predicate SomeCollides(rows: map<TxId, Row>, statuses: seq<TxStatus>) {
    exists s :: s in statuses && Collides(rows, s)
  }

  ghost predicate SomeConflicts(states: States, nw: NsWrites) {
    exists ns, key :: InsertConflict(states, nw, ns, key)
  }

  lemma DoneSettles(b: Batch, plans: map<TxId, Plan>, before: Db, a: Attempt, after: Db, k: nat)
    requires Progress(b, plans, before, k) && StatusesOf(b, a.batchStatus)
    requires Groups(a.updateWrites, b.nonBlind) && Groups(a.newWrites, b.newWrites)
    requires DisjointKeys(b.newWrites) ==> AllDistinct(a.newWrites)
    requires !SomeCollides(before.txStatus, a.batchStatus) && !SomeConflicts(before.states, a.newWrites)
    requires RowsFor(before.txStatus, a.batchStatus, after.txStatus) && Written(before.states, a, after.states)
    ensures Settled(b, plans, before, after)
  {
    NothingCollides(b, plans, before, a.batchStatus);
    NoConflictIsClear(b, plans, before, a.newWrites);
    LiveDisjoint(b.newWrites, b, plans, true, before.states);
    RowsMerge(b, plans, before, a.batchStatus, after.txStatus);
    StatesMerge(b, plans, before, a, after.states);
  }

  lemma ConflictsProgress(b: Batch, plans: map<TxId, Plan>, before: Db, a: Attempt, conflicts: map<Ns, seq<Read>>,
                          k: nat)
    requires Progress(b, plans, before, k) && StatusesOf(b, a.batchStatus) && Groups(a.newWrites, b.newWrites)
    requires !SomeCollides(before.txStatus, a.batchStatus) && SomeConflicts(before.states, a.newWrites)
    requires ReportsAll(conflicts, before.states, a.newWrites)
    requires forall id :: id in Hits(b.readToTxIDs, conflicts) ==> id in plans
    ensures AllRegistered(b.readToTxIDs, conflicts)
    ensures Progress(Pruned(b, Hits(b.readToTxIDs, conflicts), AbortedMvccConflict), plans, before, k + 1)
  {
    NothingCollides(b, plans, before, a.batchStatus);
    NoConflictIsClear(b, plans, before, a.newWrites);
    ConflictsRegistered(b, plans, before, a.newWrites, conflicts);
    ConflictStep(b, plans, before, a.newWrites, conflicts);
    CalmListed(b, plans, Hits(b.readToTxIDs, conflicts), AbortedMvccConflict);
  }

  lemma DuplicatesProgress(b: Batch, plans: map<TxId, Plan>, before: Db, statuses: seq<TxStatus>, ids: seq<TxId>,
                           k: nat)
    requires Progress(b, plans, before, k) && StatusesOf(b, statuses) && SomeCollides(before.txStatus, statuses)
    requires forall id :: id in ids <==> CollidingId(before.txStatus, statuses, id)
    ensures Progress(Pruned(b, IdSet(ids), RejectedDuplicateTxId), plans, before, k + 1)
  {
    NothingCollides(b, plans, before, statuses);
    DuplicateStep(b, plans, before, statuses, ids);
    assert forall id :: id in IdSet(ids) ==> CollidingId(before.txStatus, statuses, id);
    CalmListed(b, plans, IdSet(ids), RejectedDuplicateTxId);
  }

  lemma DuplicatesAccounted(b: Batch, plans: map<TxId, Plan>, rows: map<TxId, Row>, statuses: seq<TxStatus>,
                            ids: seq<TxId>)
    requires Accounted(b, plans) && StatusesOf(b, statuses)
    requires forall id :: id in ids <==> CollidingId(rows, statuses, id)
    ensures Accounted(Pruned(b, IdSet(ids), RejectedDuplicateTxId), plans)
  {
    assert forall id :: id in IdSet(ids) ==> CollidingId(rows, statuses, id);
    AccountedPruned(b, plans, IdSet(ids), RejectedDuplicateTxId);
  }

  lemma ConflictsAccounted(b: Batch, plans: map<TxId, Plan>, states: States, nw: NsWrites,
                           conflicts: map<Ns, seq<Read>>)
    requires Accounted(b, plans) && Groups(nw, b.newWrites) && ReportsAll(conflicts, states, nw)
    ensures forall id :: id in Hits(b.readToTxIDs, conflicts) ==> id in plans
    ensures Accounted(Pruned(b, Hits(b.readToTxIDs, conflicts), AbortedMvccConflict), plans)
  {
    HitsAccounted(b, plans, states, nw, conflicts);
    AccountedPruned(b, plans, Hits(b.readToTxIDs, conflicts), AbortedMvccConflict);
  }

  /** One turn of the commit loop: the attempt, and the pruning its rejection calls for. k counts the
      attempts rejected so far. */
  method TryCommit(v: ValidatedTransactions, db: Database, ghost plans: map<TxId, Plan>, ghost k: nat)
    returns (done: bool, ok: bool, statuses: seq<TxStatus>)
    requires Accounted(v.Fields(), plans)
    modifies v, db`states, db`txStatus
    ensures done ==> ok && v.Fields() == old(v.Fields()) && StatusesOf(v.Fields(), statuses)
    ensures !done ==> db.Contents() == old(db.Contents())
    ensures ok ==> Accounted(v.Fields(), plans) && v.feedback == old(v.feedback)
    ensures old(Progress(v.Fields(), plans, db.Contents(), k)) ==>
              ok && if done then Settled(v.Fields(), plans, old(db.Contents()), db.Contents())
                    else Progress(v.Fields(), plans, old(db.Contents()), k + 1)
  {
    ghost var b, before := v.Fields(), db.Contents();
    var updateWrites := GroupWritesByNamespace(v.nonBlind);
    var newWrites := GroupWritesByNamespace(v.newWrites);
    statuses := v.PrepareStatusForCommit();
    var a := Attempt(updateWrites, newWrites, statuses);
    var res := db.Commit(a);
    match res {
      case Done =>
        done, ok := true, true;
        if Progress(b, plans, before, k) { DoneSettles(b, plans, before, a, db.Contents(), k); }
      case Conflicts(conflicts) =>
        done := false;
        ok := AfterConflicts(v, plans, before, a, conflicts, k);
      case Duplicates(ids) =>
        done, ok := false, true;
        AfterDuplicates(v, plans, before, statuses, ids, k);
    }
  }

  method AfterConflicts(v: ValidatedTransactions, ghost plans: map<TxId, Plan>, ghost before: Db, ghost a: Attempt,
                        conflicts: map<Ns, seq<Read>>, ghost k: nat)
    returns (ok: bool)
    requires Accounted(v.Fields(), plans) && Groups(a.newWrites, v.newWrites) && StatusesOf(v.Fields(), a.batchStatus)
    requires ReportsAll(conflicts, before.states, a.newWrites)
    requires !SomeCollides(before.txStatus, a.batchStatus) && SomeConflicts(before.states, a.newWrites)
    modifies v
    ensures ok ==> Accounted(v.Fields(), plans) && v.feedback == old(v.feedback)
    ensures old(Progress(v.Fields(), plans, before, k)) ==> ok && Progress(v.Fields(), plans, before, k + 1)
  {
    ghost var b := v.Fields();
    ConflictsAccounted(b, plans, before.states, a.newWrites, conflicts);
    if Progress(b, plans, before, k) { ConflictsProgress(b, plans, before, a, conflicts, k); }
    ok := v.InvalidateTxsOnReadConflicts(conflicts);
  }

  method AfterDuplicates(v: ValidatedTransactions, ghost plans: map<TxId, Plan>, ghost before: Db,
                         ghost statuses: seq<TxStatus>, ids: seq<TxId>, ghost k: nat)
    requires Accounted(v.Fields(), plans) && StatusesOf(v.Fields(), statuses) && SomeCollides(before.txStatus, statuses)
    requires forall id :: id in ids <==> CollidingId(before.txStatus, statuses, id)
    modifies v
    ensures Accounted(v.Fields(), plans) && v.feedback == old(v.feedback)
    ensures old(Progress(v.Fields(), plans, before, k)) ==> Progress(v.Fields(), plans, before, k + 1)
  {
    ghost var b := v.Fields();
    DuplicatesAccounted(b, plans, before.txStatus, statuses, ids);
    if Progress(b, plans, before, k) { DuplicatesProgress(b, plans, before, statuses, ids, k); }
    v.UpdateInvalidTxs(ids, RejectedDuplicateTxId);
  }

  /** Every status is the one the transaction gets when the batch is run one by one. */
  ghost predicate ReportedAll(plans: map<TxId, Plan>, before: Db, statuses: seq<TxStatus>) {
    forall s :: s in statuses ==> s.id in plans && s.status == Reported(before, plans[s.id])
  }

  lemma ReportsMatch(b: Batch, plans: map<TxId, Plan>, before: Db, after: Db, statuses: seq<TxStatus>, r: seq<TxStatus>)
    requires Settled(b, plans, before, after)
    requires StatusesOf(b, statuses) && AllCorrected(after.txStatus, statuses, r)
    ensures ReportedAll(plans, before, r)
  {
    forall s | s in r ensures s.id in plans && s.status == Reported(before, plans[s.id]) {
      var i :| 0 <= i < |r| && r[i] == s;
      assert statuses[i] in statuses;
      ReportMatches(b, plans, before, after, statuses[i], s);
    }
  }

  lemma ReportMatches(b: Batch, plans: map<TxId, Plan>, before: Db, after: Db, given: TxStatus, s: TxStatus)
    requires Settled(b, plans, before, after) && given.id in ListedIds(b) && given.id in b.heights
    requires given == TxStatus(given.id, b.heights[given.id], StatusFor(b, given.id))
    requires s == Corrected(after.txStatus, given)
    ensures s.id in plans && s.status == Reported(before, plans[s.id])
  {
    LiveIsWinner(b, plans, before, given.id);
  }

  method Finish(v: ValidatedTransactions, db: Database, statuses: seq<TxStatus>, ghost plans: map<TxId, Plan>,
                ghost before: Db)
    returns (r: Answer)
    requires Accounted(v.Fields(), plans) && StatusesOf(v.Fields(), statuses)
    modifies db
    ensures r.Reply? && r.feedback == v.feedback && ExactlyOnce(plans, r.statuses, r.feedback)
    ensures Settled(v.Fields(), plans, before, db.Contents()) ==> ReportedAll(plans, before, r.statuses)
    ensures old(Quiet(db.others)) ==> db.Contents() == old(db.Contents())
  {
    db.LetOthersWrite();
    var corrected := SetCorrectStatusForDuplicateTxID(db, statuses);
    CorrectedOnce(v.Fields(), plans, statuses, db.txStatus, corrected);
    if Settled(v.Fields(), plans, before, db.Contents()) {
      ReportsMatch(v.Fields(), plans, before, db.Contents(), statuses, corrected);
    }
    r := Reply(corrected, v.feedback);
  }

  method CommitLoop(v: ValidatedTransactions, db: Database, ghost plans: map<TxId, Plan>)
    returns (r: Answer, rejected: nat)
    requires Accounted(v.Fields(), plans)
    modifies v, db
    ensures r.Reply? ==> ExactlyOnce(plans, r.statuses, r.feedback) && r.feedback == old(v.feedback)
    ensures old(Quiet(db.others)) && old(Progress(v.Fields(), plans, db.Contents(), 0)) ==>
              && r.Reply? && rejected <= 2
              && Merged(old(db.Contents()), plans, db.Contents()) && ReportedAll(plans, old(db.Contents()), r.statuses)
  {
    ghost var start, b := db.Contents(), v.Fields();
    ghost var calm := Quiet(db.others) && Progress(b, plans, start, 0);
    rejected := 0;
    for i := 0 to 1024
      invariant rejected == i && v.Fields() == b && v.feedback == old(v.feedback)
      invariant Accounted(b, plans)
      invariant calm ==> Quiet(db.others) && db.Contents() == start && Progress(b, plans, start, rejected)
    {
      db.LetOthersWrite();
      assert calm ==> db.Contents() == start;
      var done, ok, statuses := TryCommit(v, db, plans, rejected);
      b := v.Fields();
      if done {
        r := Finish(v, db, statuses, plans, start);
        return;
      }
      if !ok {
        return Failure, rejected;
      }
      rejected := rejected + 1;
    }
    return Failure, rejected;
  }

  /** What the validator hands over, when nothing else changes the database. */
  ghost predicate Handed(b: Batch, plans: map<TxId, Plan>, db: Db) {
    && WellFormed(plans) && Checked(b, plans, db)
    && (forall id :: id in plans <==> id in ListedIds(b))
    && (forall id :: id in plans ==> id in b.heights && b.heights[id] == plans[id].height)
  }

  lemma HandedProgress(b: Batch, plans: map<TxId, Plan>, db: Db, nonBlind: TxWrites, newWrites: TxWrites)
    requires Handed(b, plans, db) && Placed(db.states, b.nonBlind, b.blind, b.newWrites, nonBlind, newWrites)
    ensures Progress(b.(nonBlind := nonBlind, newWrites := newWrites, blind := map[]), plans, db, 0)
  {
    PlacementIsFine(b, plans, db, nonBlind, newWrites);
    assert ListedIds(b.(nonBlind := nonBlind, newWrites := newWrites, blind := map[])) == ListedIds(b);
  }

  method CommitTransactions(v: ValidatedTransactions, db: Database, ghost plans: map<TxId, Plan>)
    returns (r: Answer, rejected: nat)
    requires Compact(v.nonBlind) && Compact(v.blind) && Compact(v.newWrites)
    requires Accounted(v.Fields(), plans)
    modifies v, db
    ensures r.Reply? ==> ExactlyOnce(plans, r.statuses, r.feedback) && r.feedback == old(v.feedback)
    ensures old(Quiet(db.others)) && old(Handed(v.Fields(), plans, db.Contents())) ==>
              && r.Reply? && rejected <= 2
              && Merged(old(db.Contents()), plans, db.Contents()) && ReportedAll(plans, old(db.Contents()), r.statuses)
  {
    ghost var start, b0 := db.Contents(), v.Fields();
    ghost var seen := v.PopulateVersionsAndCategorizeBlindWrites(db);
    AccountedPlaced(b0, plans, seen, v.nonBlind, v.newWrites);
    if Handed(b0, plans, start) && seen == start.states { HandedProgress(b0, plans, start, v.nonBlind, v.newWrites); }
    r, rejected := CommitLoop(v, db, plans);
  }

  // ---------------------------------------------------------------------
  // The whole pipeline for one batch.

  /** No snapshot or checkpoint transaction, and everyone has something to commit. */
  predicate Ordinary(plans: map<TxId, Plan>) {
    && (forall id, op :: id in plans && op in plans[id].ops ==> op.loc.ns != SNAPSHOT_NS && op.loc.ns != CHECKPOINT_NS)
    && (forall id :: id in plans ==> Writer(plans[id]))
  }

  lemma OrdinaryHasNoSystemWrites(v: View, plans: map<TxId, Plan>, id: TxId)
    requires PreparedFrom(v, plans) && Ordinary(plans)
    ensures At(v.newWrites, id, SNAPSHOT_NS) == [] && At(v.newWrites, id, CHECKPOINT_NS) == []
  {
    NoWritesOf(Inserted, OpsAt(plans, id), SNAPSHOT_NS);
    NoWritesOf(Inserted, OpsAt(plans, id), CHECKPOINT_NS);
  }

  predicate AllCompact(b: Batch) {
    Compact(b.nonBlind) && Compact(b.blind) && Compact(b.newWrites)
  }

  lemma PrunedCompact(b: Batch, bad: set<TxId>, status: Status)
    requires AllCompact(b)
    ensures AllCompact(Pruned(b, bad, status))
  {
  }

  /** The batch as it leaves the bulk check. */
  lemma AfterBulk(v: View, plans: map<TxId, Plan>, db: Db, b: Batch, conflicts: map<Ns, seq<Read>>)
    requires PreparedFrom(v, plans) && OnlyListed(v, conflicts) && Accounted(b, plans)
    requires b == Batch(v.nonBlind, v.blind, v.newWrites, v.readToTxIDs, v.invalid, v.heights, b.checkpoint, None)
    ensures AllRegistered(b.readToTxIDs, conflicts)
    ensures var now := Pruned(b, Hits(b.readToTxIDs, conflicts), AbortedMvccConflict);
            && Accounted(now, plans) && AllCompact(now)
            && (BulkConflicts(v, db.states, conflicts) && WellFormed(plans) && Ordinary(plans) ==>
                  Handed(now, plans, db) && forall id :: At(now.newWrites, id, SNAPSHOT_NS) == [])
  {
    var hits := Hits(b.readToTxIDs, conflicts);
    AllConflictsRegistered(v, plans, conflicts);
    AccountedPruned(b, plans, hits, AbortedMvccConflict);
    PrunedCompact(b, hits, AbortedMvccConflict);
    if BulkConflicts(v, db.states, conflicts) && WellFormed(plans) && Ordinary(plans) {
      BulkCheckChecks(v, plans, db, b, conflicts);
      PrunedAt(b.newWrites, hits);
      forall id ensures At(v.newWrites, id, SNAPSHOT_NS) == [] { OrdinaryHasNoSystemWrites(v, plans, id); }
    }
  }

  lemma AfterSnapshotGate(b: Batch, plans: map<TxId, Plan>, id: TxId, status: Status)
    requires Accounted(b, plans) && AllCompact(b) && id in b.newWrites
    ensures Accounted(Pruned(b, {id}, status), plans) && AllCompact(Pruned(b, {id}, status))
  {
    assert id in ListedIds(b);
    AccountedPruned(b, plans, {id}, status);
    PrunedCompact(b, {id}, status);
  }

  lemma AfterCheckpointGate(b: Batch, plans: map<TxId, Plan>, status: Status, hold: bool)
    requires Accounted(b, plans) && AllCompact(b) && b.checkpoint.Some?
    ensures var now := Pruned(b, {b.checkpoint.value.txId}, status); Accounted(now, plans) && AllCompact(now)
    ensures Accounted(Withheld(b, hold), plans) && AllCompact(Withheld(b, hold))
  {
    var id := b.checkpoint.value.txId;
    AccountedPruned(b, plans, {id}, status);
    PrunedCompact(b, {id}, status);
    AccountedWithheld(b, plans, hold);
  }

  method CheckReads(v: ValidatedTransactions, nsToReads: map<Ns, seq<Read>>, db: Database, ghost view: View,
                    ghost plans: map<TxId, Plan>)
    returns (ok: bool)
    requires PreparedFrom(view, plans) && Accounted(v.Fields(), plans) && nsToReads == view.nsToReads
    requires v.Fields() ==
             Batch(view.nonBlind, view.blind, view.newWrites, view.readToTxIDs, view.invalid, view.heights,
               v.checkpoint, None)
    modifies v, db
    ensures ok && AllCompact(v.Fields()) && Accounted(v.Fields(), plans) && v.feedback.None?
    ensures old(v.checkpoint).None? ==> v.checkpoint.None?
    ensures old(Quiet(db.others)) ==> Quiet(db.others) && db.Contents() == old(db.Contents())
    ensures old(Quiet(db.others)) && WellFormed(plans) && Ordinary(plans) ==>
              Handed(v.Fields(), plans, db.Contents()) && forall id :: At(v.newWrites, id, SNAPSHOT_NS) == []
  {
    ghost var b0 := v.Fields();
    var conflicts, seen := ValidateReads(db, nsToReads);
    AfterBulk(view, plans, db.Contents(), b0, conflicts);
    ok := v.InvalidateTxsOnReadConflicts(conflicts);
  }

  /** Each gate lets the batch pass, prunes the transaction it refuses or withholds it. */
  method CheckGates(v: ValidatedTransactions, db: Database, gate: Option<Status>, verdict: Verdict,
                    ghost plans: map<TxId, Plan>)
    requires AllCompact(v.Fields()) && Accounted(v.Fields(), plans)
    modifies v, db
    ensures AllCompact(v.Fields()) && Accounted(v.Fields(), plans)
    ensures old(Quiet(db.others)) ==> Quiet(db.others) && db.Contents() == old(db.Contents())
    ensures old(v.checkpoint).None? && (forall id :: At(old(v.newWrites), id, SNAPSHOT_NS) == []) ==>
              v.Fields() == old(v.Fields())
  {
    ghost var b1 := v.Fields();
    forall id | id in b1.newWrites && gate.Some?
      ensures Accounted(Pruned(b1, {id}, gate.value), plans) && AllCompact(Pruned(b1, {id}, gate.value))
    {
      AfterSnapshotGate(b1, plans, id, gate.value);
    }
    RejectSnapshotIfPriorNotCheckpointed(v, db, gate);
    if v.checkpoint.Some? {
      AfterCheckpointGate(v.Fields(), plans, if verdict.Reject? then verdict.status else Committed,
                          verdict.Withhold? && verdict.hold);
    }
    RejectCheckpointIfNotVerified(v, db, verdict);
  }

  /** The bulk check, then the two gates for system transactions. */
  method Validate(v: ValidatedTransactions, nsToReads: map<Ns, seq<Read>>, db: Database, gate: Option<Status>,
                  verdict: Verdict, ghost view: View, ghost plans: map<TxId, Plan>)
    returns (ok: bool)
    requires PreparedFrom(view, plans) && Accounted(v.Fields(), plans) && nsToReads == view.nsToReads
    requires v.Fields() ==
             Batch(view.nonBlind, view.blind, view.newWrites, view.readToTxIDs, view.invalid, view.heights,
               v.checkpoint, None)
    modifies v, db
    ensures ok && AllCompact(v.Fields()) && Accounted(v.Fields(), plans)
    ensures old(Quiet(db.others)) ==> Quiet(db.others) && db.Contents() == old(db.Contents())
    ensures old(Quiet(db.others)) && WellFormed(plans) && Ordinary(plans) && old(v.checkpoint).None? ==>
              Handed(v.Fields(), plans, db.Contents()) && v.feedback.None?
  {
    ok := CheckReads(v, nsToReads, db, view, plans);
    CheckGates(v, db, gate, verdict, plans);
  }

  /** order runs every transaction of the batch at least once, and no other. */
  ghost predicate Orders(order: seq<Plan>, plans: map<TxId, Plan>) {
    forall p :: p in order <==> p.id in plans && plans[p.id] == p
  }

  /** The tables after the batch and every reported status are those of running the transactions one
      by one, in any order whatsoever. */
  ghost predicate Serializable(plans: map<TxId, Plan>, before: Db, after: Db, statuses: seq<TxStatus>) {
    forall order: seq<Plan> :: Orders(order, plans) ==>
      && RunSerial(before, order).0 == after
      && |RunSerial(before, order).1| == |order|
      && forall i, s :: 0 <= i < |order| && s in statuses && s.id == order[i].id ==>
           s.status == RunSerial(before, order).1[i]
  }

  lemma MergedIsSerializable(plans: map<TxId, Plan>, before: Db, after: Db, statuses: seq<TxStatus>)
    requires WellFormed(plans) && Merged(before, plans, after) && ReportedAll(plans, before, statuses)
    ensures Serializable(plans, before, after, statuses)
  {
    forall order: seq<Plan> | Orders(order, plans)
      ensures RunSerial(before, order).0 == after && |RunSerial(before, order).1| == |order|
      ensures forall i, s :: 0 <= i < |order| && s in statuses && s.id == order[i].id ==>
                s.status == RunSerial(before, order).1[i]
    {
      SerialMerges(before, plans, order);
      assert Covered(plans, order) == plans;
      MergedIsUnique(before, plans, after, RunSerial(before, order).0);
      assert forall i :: 0 <= i < |order| ==> order[i] in order;
    }
  }

  function PlansOf(batch: seq<VcTx>): seq<Plan> {
    seq(|batch|, i requires 0 <= i < |batch| => PlanOf(batch[i]))
  }

  /** The batch as it arrived, repetitions included, is one of the orders. */
  lemma BatchIsAnOrder(batch: seq<VcTx>)
    requires IdsAgree(batch)
    ensures Orders(PlansOf(batch), ById(batch))
  {
    var order, plans := PlansOf(batch), ById(batch);
    forall p: Plan | p.id in plans && plans[p.id] == p ensures p in order {
      var tx :| tx in batch && plans[p.id] == PlanOf(tx);
      var i :| 0 <= i < |batch| && batch[i] == tx;
      assert order[i] == p;
    }
    forall p | p in order ensures p.id in plans && plans[p.id] == p {
      var i :| 0 <= i < |order| && order[i] == p;
      assert batch[i] in batch;
      var tx :| tx in batch && plans[p.id] == PlanOf(tx);
      assert tx.id == p.id;
    }
  }

  /** Every reported status is the one its transaction has by the tables before the batch. */
  ghost predicate StatusesFollow(batch: seq<VcTx>, before: Db, statuses: seq<TxStatus>) {
    forall i, s :: First(batch, i) && s in statuses && s.id == batch[i].id ==> HasStatus(before, batch[i], s.status)
  }

  lemma ReportedFollow(batch: seq<VcTx>, before: Db, statuses: seq<TxStatus>)
    requires ReportedAll(ById(batch), before, statuses)
    ensures StatusesFollow(batch, before, statuses)
  {
    forall i, s | First(batch, i) && s in statuses && s.id == batch[i].id
      ensures HasStatus(before, batch[i], s.status)
    {
      FirstIsPlanned(batch, i);
      ReportedHasStatus(before, batch[i]);
    }
  }

  /** One batch through preparer, validator and committer. gate and verdict are what the snapshot
      and checkpoint checks answer; db.others is what the rest of the world does to the tables before each
      access. Whatever they are, a reply answers every transaction exactly once. Left alone, a batch of
      ordinary transactions gets a reply after at most two rejected attempts, it is serializable, and tables
      and statuses follow from the transactions as they were submitted. */
  method ProcessBatch(batch: seq<VcTx>, db: Database, decodeKey: Key -> Option<nat>, validValue: Value -> bool,
                      gate: Option<Status>, verdict: Verdict)
    returns (r: Answer, rejected: nat)
    requires CheckpointsAlone(ById(batch))
    modifies db
    ensures r.Reply? ==> ExactlyOnce(ById(batch), r.statuses, r.feedback)
    ensures old(Quiet(db.others)) && WellFormed(ById(batch)) && Ordinary(ById(batch)) ==>
              && r.Reply? && r.feedback.None? && rejected <= 2
              && Serializable(ById(batch), old(db.Contents()), db.Contents(), r.statuses)
              && TablesFollow(batch, old(db.Contents()), db.Contents())
              && StatusesFollow(batch, old(db.Contents()), r.statuses)
  {
    ghost var plans, before := ById(batch), db.Contents();
    var p := Prepare(batch);
    ghost var view := p.Fields();
    PreparedHeights(view, plans);
    var cp, ok := CheckpointWriteInBatch(p.newWrites, p.heights, decodeKey, validValue);
    if Ordinary(plans) {
      forall id ensures !HasCheckpoint(p.newWrites, id) { OrdinaryHasNoSystemWrites(view, plans, id); }
    }
    if !ok {
      return Failure, 0;
    }
    var v := new ValidatedTransactions(p, cp);
    StartsAccounted(view, plans, v.Fields());
    ok := Validate(v, p.nsToReads, db, gate, verdict, view, plans);
    r, rejected := CommitTransactions(v, db, plans);
    if old(Quiet(db.others)) && WellFormed(plans) && Ordinary(plans) {
      MergedIsSerializable(plans, before, db.Contents(), r.statuses);
      MergedFollows(batch, before, db.Contents());
      ReportedFollow(batch, before, r.statuses);
    }
  }

  lemma PreparedHeights(v: View, plans: map<TxId, Plan>)
    requires PreparedFrom(v, plans)
    ensures v.newWrites.Keys <= v.heights.Keys
  {
    forall id | id in v.newWrites ensures id in v.heights {
      if id !in plans { NotInPlans(v, plans, id); }
    }
  }
}
