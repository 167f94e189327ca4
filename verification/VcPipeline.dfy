/** Where the writes of a transaction end up once its blind writes are placed. */
module VcPlacement {
  import opened VcTypes
  import opened VcPrepare
  import opened VcDatabase
  import opened VcCommit

  predicate UpdateOp(states: States, op: Op) {
    IsKind(op, Versioned) || (op.BlindOp? && op.loc in states)
  }

  predicate InsertOp(states: States, op: Op) {
    IsKind(op, Inserted) || (op.BlindOp? && op.loc !in states)
  }

  predicate Goes(insert: bool, states: States, op: Op) {
    if insert then InsertOp(states, op) else UpdateOp(states, op)
  }

  function CellWrite(states: States, op: Op): KeyWrite
    requires !op.ReadOp?
  {
    var c := EffectOf(states, op);
    KeyWrite(op.loc.key, c.value, c.version)
  }

  function Placement(insert: bool, states: States, ops: seq<Op>, ns: Ns): seq<KeyWrite> {
    if insert then WritesOf(Inserted, ops, ns) + Absent(states, ns, WritesOf(Blind, ops, ns))
    else WritesOf(Versioned, ops, ns) + Present(states, ns, WritesOf(Blind, ops, ns))
  }

  predicate FromKind(kind: Kind, ops: seq<Op>, ns: Ns, w: KeyWrite) {
    exists op :: op in ops && IsKind(op, kind) && op.loc.ns == ns && w == WriteOf(op)
  }

  lemma {:induction false} WritesOfElems(kind: Kind, ops: seq<Op>, ns: Ns, w: KeyWrite)
    ensures w in WritesOf(kind, ops, ns) <==> FromKind(kind, ops, ns, w)
  {
    if ops != [] {
      var front, last := ops[..|ops| - 1], ops[|ops| - 1];
      assert ops == front + [last];
      WritesOfElems(kind, front, ns, w);
      if FromKind(kind, front, ns, w) {
        var op :| op in front && IsKind(op, kind) && op.loc.ns == ns && w == WriteOf(op);
        assert op in ops;
      }
      assert last in ops;
    }
  }

  function SplitWrite(insert: bool, states: States, ns: Ns, x: KeyWrite): KeyWrite {
    KeyWrite(x.key, x.value,
             if insert || Loc(ns, x.key) !in states then 0 else NextVersion(states[Loc(ns, x.key)].version))
  }

  predicate FromSplit(insert: bool, states: States, ns: Ns, ws: seq<KeyWrite>, w: KeyWrite) {
    exists x :: x in ws && (Loc(ns, x.key) in states <==> !insert) && w == SplitWrite(insert, states, ns, x)
  }

  lemma {:induction false} SplitElems(insert: bool, states: States, ns: Ns, ws: seq<KeyWrite>, w: KeyWrite)
    ensures w in Split(!insert, states, ns, ws) <==> FromSplit(insert, states, ns, ws, w)
  {
    if ws != [] {
      var front, last := ws[..|ws| - 1], ws[|ws| - 1];
      assert ws == front + [last];
      SplitElems(insert, states, ns, front, w);
      assert last in ws && forall x :: x in front ==> x in ws;
    }
  }

  predicate PlacedFrom(insert: bool, states: States, ops: seq<Op>, ns: Ns, w: KeyWrite) {
    exists op :: op in ops && Goes(insert, states, op) && op.loc.ns == ns && w == CellWrite(states, op)
  }

  predicate FromBlind(insert: bool, states: States, ops: seq<Op>, ns: Ns, w: KeyWrite) {
    exists op :: op in ops && op.BlindOp? && Goes(insert, states, op) && op.loc.ns == ns && w == CellWrite(states, op)
  }

  lemma PlacedCases(insert: bool, states: States, ops: seq<Op>, ns: Ns, w: KeyWrite)
    ensures PlacedFrom(insert, states, ops, ns, w) <==>
            FromKind(if insert then Inserted else Versioned, ops, ns, w) || FromBlind(insert, states, ops, ns, w)
  {
    var kind := if insert then Inserted else Versioned;
    if PlacedFrom(insert, states, ops, ns, w) {
      var op :| op in ops && Goes(insert, states, op) && op.loc.ns == ns && w == CellWrite(states, op);
      assert op.BlindOp? || (IsKind(op, kind) && w == WriteOf(op));
    }
    if FromKind(kind, ops, ns, w) {
      var op :| op in ops && IsKind(op, kind) && op.loc.ns == ns && w == WriteOf(op);
      assert Goes(insert, states, op) && w == CellWrite(states, op);
    }
  }

  lemma BlindElems(insert: bool, states: States, ops: seq<Op>, ns: Ns, w: KeyWrite)
    ensures FromSplit(insert, states, ns, WritesOf(Blind, ops, ns), w) <==>
            FromBlind(insert, states, ops, ns, w)
  {
    var ws := WritesOf(Blind, ops, ns);
    if FromSplit(insert, states, ns, ws, w) {
      var x :| x in ws && (Loc(ns, x.key) in states <==> !insert) && w == SplitWrite(insert, states, ns, x);
      WritesOfElems(Blind, ops, ns, x);
      var op :| op in ops && IsKind(op, Blind) && op.loc.ns == ns && x == WriteOf(op);
      assert op.loc == Loc(ns, x.key);
    }
    if op :| op in ops && op.BlindOp? && Goes(insert, states, op) && op.loc.ns == ns && w == CellWrite(states, op) {
      var x := WriteOf(op);
      WritesOfElems(Blind, ops, ns, x);
      assert op.loc == Loc(ns, x.key);
    }
  }

  /** The placed writes are exactly the effects of the operations that go there. */
  lemma PlacementElems(insert: bool, states: States, ops: seq<Op>, ns: Ns, w: KeyWrite)
    ensures w in Placement(insert, states, ops, ns) <==> PlacedFrom(insert, states, ops, ns, w)
  {
    var kind := if insert then Inserted else Versioned;
    WritesOfElems(kind, ops, ns, w);
    SplitElems(insert, states, ns, WritesOf(Blind, ops, ns), w);
    BlindElems(insert, states, ops, ns, w);
    PlacedCases(insert, states, ops, ns, w);
    var a, b := WritesOf(kind, ops, ns), Split(!insert, states, ns, WritesOf(Blind, ops, ns));
    assert Placement(insert, states, ops, ns) == a + b;
  }

  lemma {:induction false} WritesOfDistinct(kind: Kind, ops: seq<Op>, ns: Ns)
    requires OneTouch(ops)
    ensures DistinctKeys(WritesOf(kind, ops, ns))
  {
    if ops != [] {
      var front, last := ops[..|ops| - 1], ops[|ops| - 1];
      assert ops == front + [last];
      assert OneTouch(front) by {
        assert forall i :: 0 <= i < |front| ==> front[i] == ops[i];
      }
      WritesOfDistinct(kind, front, ns);
      if IsKind(last, kind) && last.loc.ns == ns {
        forall w | w in WritesOf(kind, front, ns) ensures w.key != last.loc.key {
          WritesOfElems(kind, front, ns, w);
          var op :| op in front && IsKind(op, kind) && op.loc.ns == ns && w == WriteOf(op);
          SameLocTwice(ops, op, last);
        }
      }
    }
  }

  /** Two different positions cannot both write one key. */
  lemma SameLocTwice(ops: seq<Op>, op: Op, last: Op)
    requires OneTouch(ops) && ops != [] && last == ops[|ops| - 1] && op in ops[..|ops| - 1]
    requires !op.ReadOp? && !last.ReadOp?
    ensures op.loc != last.loc
  {
    var i :| 0 <= i < |ops| - 1 && ops[..|ops| - 1][i] == op;
    assert ops[i] == op;
  }

  lemma {:induction false} SplitDistinct(states: States, ns: Ns, ws: seq<KeyWrite>)
    requires DistinctKeys(ws)
    ensures DistinctKeys(Present(states, ns, ws)) && DistinctKeys(Absent(states, ns, ws))
  {
    if ws != [] {
      var front, last := ws[..|ws| - 1], ws[|ws| - 1];
      assert ws == front + [last];
      SplitDistinct(states, ns, front);
      forall w | w in Present(states, ns, front) || w in Absent(states, ns, front) ensures w.key != last.key {
        SplitElems(true, states, ns, front, w);
        SplitElems(false, states, ns, front, w);
        var x :| x in front && x.key == w.key;
        var i :| 0 <= i < |front| && front[i] == x;
        assert ws[i] == x && ws[|ws| - 1] == last;
      }
    }
  }

  /** Different operations of one transaction write different keys. */
  lemma OpsApart(ops: seq<Op>, a: Op, b: Op)
    requires OneTouch(ops) && a in ops && b in ops && a != b && !a.ReadOp? && !b.ReadOp?
    ensures a.loc != b.loc
  {
    var i :| 0 <= i < |ops| && ops[i] == a;
    var j :| 0 <= j < |ops| && ops[j] == b;
    if i < j { assert a.loc != b.loc; } else { assert b.loc != a.loc; }
  }

  lemma ConcatDistinct(a: seq<KeyWrite>, b: seq<KeyWrite>)
    requires DistinctKeys(a) && DistinctKeys(b) && Apart(a, b)
    ensures DistinctKeys(a + b)
  {
    forall i, j | 0 <= i < j < |a + b| ensures (a + b)[i].key != (a + b)[j].key {
      if i < |a| <= j {
        assert (a + b)[i] in a && (a + b)[j] in b;
      }
    }
  }

  lemma PlacementDistinct(insert: bool, states: States, ops: seq<Op>, ns: Ns)
    requires OneTouch(ops)
    ensures DistinctKeys(Placement(insert, states, ops, ns))
  {
    var kind := if insert then Inserted else Versioned;
    WritesOfDistinct(kind, ops, ns);
    WritesOfDistinct(Blind, ops, ns);
    var blind := WritesOf(Blind, ops, ns);
    SplitDistinct(states, ns, blind);
    var split := if insert then Absent(states, ns, blind) else Present(states, ns, blind);
    forall v, w | v in WritesOf(kind, ops, ns) && w in split ensures v.key != w.key {
      SplitElems(insert, states, ns, blind, w);
      var x :| x in blind && x.key == w.key;
      KindsApart(kind, ops, ns, v, x);
    }
    ConcatDistinct(WritesOf(kind, ops, ns), split);
  }

  lemma KindsApart(kind: Kind, ops: seq<Op>, ns: Ns, v: KeyWrite, x: KeyWrite)
    requires OneTouch(ops) && kind != Blind && v in WritesOf(kind, ops, ns) && x in WritesOf(Blind, ops, ns)
    ensures v.key != x.key
  {
    WritesOfElems(kind, ops, ns, v);
    WritesOfElems(Blind, ops, ns, x);
    var a :| a in ops && IsKind(a, kind) && a.loc.ns == ns && v == WriteOf(a);
    var b :| b in ops && IsKind(b, Blind) && b.loc.ns == ns && x == WriteOf(b);
    OpsApart(ops, a, b);
  }
}

/** What holds of a batch while it is pruned, and what a commit attempt then does. */
module VcInvariant {
  import opened Common
  import opened VcTypes
  import opened VcSerial
  import opened VcPrepare
  import opened VcDatabase
  import opened VcCommit
  import opened VcPlacement

  predicate VersionsFit(plans: map<TxId, Plan>) {
    forall id, op :: id in plans && op in plans[id].ops && !op.BlindOp? && op.version.Some? ==>
      op.version.value != TWO_TO_THE_64 - 1
  }

  /** The batches the dependency graph and the sidecar let through. */
  predicate WellFormed(plans: map<TxId, Plan>) {
    Keyed(plans) && ConflictFree(plans) && AllOneTouch(plans) && VersionsFit(plans)
  }

  /** Reads that are checked before the commit: all but the inserts. */
  predicate BulkHolds(states: States, ops: seq<Op>) {
    forall op :: op in ops && !IsKind(op, Inserted) ==> ClaimHolds(states, op)
  }

  predicate InsertsHold(states: States, ops: seq<Op>) {
    forall op :: op in ops && IsKind(op, Inserted) ==> op.loc !in states
  }

  lemma FreshIsBoth(states: States, ops: seq<Op>)
    ensures Fresh(states, ops) <==> BulkHolds(states, ops) && InsertsHold(states, ops)
  {
  }

  /** Why a transaction may carry an invalid status. */
  predicate Explained(db: Db, p: Plan, status: Status) {
    || (status == AbortedMvccConflict && p.prelim.None? && !Fresh(db.states, p.ops))
    || (status == RejectedDuplicateTxId && p.id in db.txStatus)
    || p.prelim == Some(status)
  }

  function LiveOps(b: Batch, plans: map<TxId, Plan>, id: TxId): seq<Op> {
    if id in b.invalid then [] else OpsAt(plans, id)
  }

  ghost predicate InvalidExplained(b: Batch, plans: map<TxId, Plan>, db: Db) {
    && (forall id :: id in b.invalid ==> id in plans && Explained(db, plans[id], b.invalid[id]))
    && (forall id :: id in plans && plans[id].prelim.Some? ==> id in b.invalid)
  }

  ghost predicate LiveWrites(tw: TxWrites, b: Batch, plans: map<TxId, Plan>, kind: Kind) {
    forall id, ns :: At(tw, id, ns) == WritesOf(kind, LiveOps(b, plans, id), ns)
  }

  ghost predicate LivePlacement(tw: TxWrites, b: Batch, plans: map<TxId, Plan>, insert: bool, states: States) {
    forall id, ns :: At(tw, id, ns) == Placement(insert, states, LiveOps(b, plans, id), ns)
  }

  ghost predicate LiveBulkHolds(b: Batch, plans: map<TxId, Plan>, states: States) {
    forall id :: BulkHolds(states, LiveOps(b, plans, id))
  }

  /** A validated batch whose blind writes are placed, against the tables it started from. */
  ghost predicate Fine(b: Batch, plans: map<TxId, Plan>, db: Db) {
    && b.blind == map[]
    && HoldsClaims(b.readToTxIDs, plans)
    && InvalidExplained(b, plans, db)
    && LiveBulkHolds(b, plans, db.states)
    && LivePlacement(b.nonBlind, b, plans, false, db.states)
    && LivePlacement(b.newWrites, b, plans, true, db.states)
  }

  lemma PrunedAt(tw: TxWrites, bad: set<TxId>)
    ensures forall id, ns :: At(tw - bad, id, ns) == if id in bad then [] else At(tw, id, ns)
  {
  }

  lemma PrunedLiveOps(b: Batch, plans: map<TxId, Plan>, bad: set<TxId>, status: Status)
    ensures forall id :: LiveOps(Pruned(b, bad, status), plans, id) == if id in bad then [] else LiveOps(b, plans, id)
  {
  }

  lemma PrunedLivePlacement(
    tw: TxWrites, b: Batch, plans: map<TxId, Plan>, insert: bool, states: States, bad: set<TxId>, status: Status)
    requires LivePlacement(tw, b, plans, insert, states)
    ensures LivePlacement(tw - bad, Pruned(b, bad, status), plans, insert, states)
  {
    PrunedLiveOps(b, plans, bad, status);
    PrunedAt(tw, bad);
    forall id, ns ensures At(tw - bad, id, ns) ==
      Placement(insert, states, LiveOps(Pruned(b, bad, status), plans, id), ns)
    {
      assert At(tw, id, ns) == Placement(insert, states, LiveOps(b, plans, id), ns);
    }
  }

  lemma FinePruned(b: Batch, plans: map<TxId, Plan>, db: Db, bad: set<TxId>, status: Status)
    requires Fine(b, plans, db)
    requires forall id :: id in bad ==> id in plans && Explained(db, plans[id], status)
    ensures Fine(Pruned(b, bad, status), plans, db)
  {
    PrunedLivePlacement(b.nonBlind, b, plans, false, db.states, bad, status);
    PrunedLivePlacement(b.newWrites, b, plans, true, db.states, bad, status);
    PrunedLiveOps(b, plans, bad, status);
    assert b.blind - bad == map[];
  }

  // ---------------------------------------------------------------------
  // From a prepared batch to a placed one.

  lemma SameCmpSameRead(plans: map<TxId, Plan>, i: TxId, a: Op, j: TxId, b: Op)
    requires VersionsFit(plans) && a in OpsAt(plans, i) && b in OpsAt(plans, j) && !a.BlindOp? && !b.BlindOp?
    requires CmpOf(a) == CmpOf(b)
    ensures a.version == b.version && a.loc == b.loc
  {
    assert a.loc == Loc(a.loc.ns, a.loc.key) && b.loc == Loc(b.loc.ns, b.loc.key);
  }

  /** conflicts is the outcome of checking the listed reads against states. */
  ghost predicate BulkConflicts(v: View, states: States, conflicts: map<Ns, seq<Read>>) {
    forall ns, r :: Reports(conflicts, ns, r) <==>
      ns in v.nsToReads && r in v.nsToReads[ns] && StaleRead(states, ns, r)
  }

  lemma HitIsStale(v: View, plans: map<TxId, Plan>, states: States, conflicts: map<Ns, seq<Read>>, id: TxId)
    requires Reflects(v, plans) && VersionsFit(plans) && BulkConflicts(v, states, conflicts)
    requires HitBy(v.readToTxIDs, conflicts, id)
    ensures id in plans && plans[id].prelim.None? && !Fresh(states, plans[id].ops)
  {
    var ns, r :| Reports(conflicts, ns, r) && Registered(v.readToTxIDs, NewCmpRead(ns, r.key, r.version), id);
    var cr := NewCmpRead(ns, r.key, r.version);
    assert Claims(OpsAt(plans, id), cr);
    var op :| op in OpsAt(plans, id) && !op.BlindOp? && CmpOf(op) == cr;
    assert SomeMakes(plans, ns, r);
    var j :| Makes(OpsAt(plans, j), ns, r);
    var op2 :| op2 in OpsAt(plans, j) && !op2.BlindOp? && op2.loc == Loc(ns, r.key) && op2.version == r.version;
    SameCmpSameRead(plans, id, op, j, op2);
    assert !ClaimHolds(states, op);
  }

  /** Nothing but listed reads is reported. */
  ghost predicate OnlyListed(v: View, conflicts: map<Ns, seq<Read>>) {
    forall ns, r :: Reports(conflicts, ns, r) ==> ns in v.nsToReads && r in v.nsToReads[ns]
  }

  lemma AllConflictsRegistered(v: View, plans: map<TxId, Plan>, conflicts: map<Ns, seq<Read>>)
    requires Reflects(v, plans) && OnlyListed(v, conflicts)
    ensures AllRegistered(v.readToTxIDs, conflicts)
  {
    forall ns, r | Reports(conflicts, ns, r) ensures NewCmpRead(ns, r.key, r.version) in v.readToTxIDs {
      assert SomeMakes(plans, ns, r);
      var j :| Makes(OpsAt(plans, j), ns, r);
      var op :| op in OpsAt(plans, j) && !op.BlindOp? && op.loc == Loc(ns, r.key) && op.version == r.version;
      assert Claims(OpsAt(plans, j), NewCmpRead(ns, r.key, r.version));
      assert Registered(v.readToTxIDs, NewCmpRead(ns, r.key, r.version), j);
    }
  }

  /** A read that shares its key with an insert of the batch is a versioned one. */
  lemma InsertApart(plans: map<TxId, Plan>, id: TxId, op: Op, j: TxId, op2: Op)
    requires WellFormed(plans) && op in OpsAt(plans, id) && !op.BlindOp? && !IsKind(op, Inserted)
    requires op2 in OpsAt(plans, j) && IsKind(op2, Inserted)
    ensures op.loc == op2.loc ==> op.version.Some?
  {
    if j == id {
      var x :| 0 <= x < |plans[id].ops| && plans[id].ops[x] == op;
      var y :| 0 <= y < |plans[id].ops| && plans[id].ops[y] == op2;
      assert OneTouch(plans[id].ops) && x != y;
    } else {
      assert Independent(plans[j], plans[id]);
    }
  }

  lemma NobodyInserts(plans: map<TxId, Plan>, id: TxId, op: Op)
    requires WellFormed(plans) && op in OpsAt(plans, id) && !op.BlindOp? && !IsKind(op, Inserted)
    ensures !SomeInsertClaims(plans, CmpOf(op))
  {
    forall j, op2 | op2 in OpsAt(plans, j) && IsKind(op2, Inserted) ensures CmpOf(op2) != CmpOf(op) {
      InsertApart(plans, id, op, j, op2);
      assert op.loc == Loc(op.loc.ns, op.loc.key) && op2.loc == Loc(op2.loc.ns, op2.loc.key);
      assert id in plans && op in plans[id].ops;
    }
  }

  lemma NotHitIsFresh(v: View, plans: map<TxId, Plan>, states: States, conflicts: map<Ns, seq<Read>>, id: TxId)
    requires Reflects(v, plans) && WellFormed(plans) && BulkConflicts(v, states, conflicts)
    requires !HitBy(v.readToTxIDs, conflicts, id)
    ensures BulkHolds(states, OpsAt(plans, id))
  {
    forall op | op in OpsAt(plans, id) && !IsKind(op, Inserted) ensures ClaimHolds(states, op) {
      if !op.BlindOp? {
        var cr := CmpOf(op);
        assert Claims(OpsAt(plans, id), cr);
        assert Registered(v.readToTxIDs, cr, id);
        NobodyInserts(plans, id, op);
        assert Listed(v.nsToReads, cr);
        var r :| r in v.nsToReads[cr.nsId] && NewCmpRead(cr.nsId, r.key, r.version) == cr;
        assert SomeMakes(plans, cr.nsId, r);
        var j :| Makes(OpsAt(plans, j), cr.nsId, r);
        var op2 :| op2 in OpsAt(plans, j) && !op2.BlindOp? && op2.loc == Loc(cr.nsId, r.key) &&
          op2.version == r.version;
        SameCmpSameRead(plans, id, op, j, op2);
        assert !Reports(conflicts, cr.nsId, r);
      }
    }
  }

  lemma LiveWritesAfterBulk(tw: TxWrites, plans: map<TxId, Plan>, kind: Kind, b: Batch, hits: set<TxId>, status: Status)
    requires HoldsWrites(tw, plans, kind)
    requires forall id :: id in b.invalid ==> id in plans && plans[id].prelim.Some?
    ensures LiveWrites(tw - hits, Pruned(b, hits, status), plans, kind)
  {
    PrunedAt(tw, hits);
    PrunedLiveOps(b, plans, hits, status);
    forall id, ns ensures At(tw - hits, id, ns) == WritesOf(kind, LiveOps(Pruned(b, hits, status), plans, id), ns) {
      assert At(tw, id, ns) == WritesOf(kind, OpsAt(plans, id), ns);
    }
  }

  lemma PlacedLive(b: Batch, plans: map<TxId, Plan>, states: States, nonBlind: TxWrites, newWrites: TxWrites)
    requires LiveWrites(b.nonBlind, b, plans, Versioned)
    requires LiveWrites(b.blind, b, plans, Blind)
    requires LiveWrites(b.newWrites, b, plans, Inserted)
    requires Placed(states, b.nonBlind, b.blind, b.newWrites, nonBlind, newWrites)
    ensures var now := b.(nonBlind := nonBlind, newWrites := newWrites, blind := map[]);
            && LivePlacement(nonBlind, now, plans, false, states)
            && LivePlacement(newWrites, now, plans, true, states)
  {
    var now := b.(nonBlind := nonBlind, newWrites := newWrites, blind := map[]);
    forall id, ns ensures
      && At(nonBlind, id, ns) == Placement(false, states, LiveOps(now, plans, id), ns)
      && At(newWrites, id, ns) == Placement(true, states, LiveOps(now, plans, id), ns)
    {
      assert LiveOps(now, plans, id) == LiveOps(b, plans, id);
      assert At(b.nonBlind, id, ns) == WritesOf(Versioned, LiveOps(b, plans, id), ns);
      assert At(b.blind, id, ns) == WritesOf(Blind, LiveOps(b, plans, id), ns);
      assert At(b.newWrites, id, ns) == WritesOf(Inserted, LiveOps(b, plans, id), ns);
    }
  }

  /** A validated batch, before its blind writes are placed. */
  ghost predicate Checked(b: Batch, plans: map<TxId, Plan>, db: Db) {
    && HoldsClaims(b.readToTxIDs, plans)
    && InvalidExplained(b, plans, db)
    && LiveBulkHolds(b, plans, db.states)
    && LiveWrites(b.nonBlind, b, plans, Versioned)
    && LiveWrites(b.blind, b, plans, Blind)
    && LiveWrites(b.newWrites, b, plans, Inserted)
  }

  lemma BulkCheckChecks(v: View, plans: map<TxId, Plan>, db: Db, b: Batch, conflicts: map<Ns, seq<Read>>)
    requires Reflects(v, plans) && WellFormed(plans) && BulkConflicts(v, db.states, conflicts)
    requires b.nonBlind == v.nonBlind && b.blind == v.blind && b.newWrites == v.newWrites
    requires b.readToTxIDs == v.readToTxIDs && b.invalid == v.invalid
    ensures Checked(Pruned(b, Hits(b.readToTxIDs, conflicts), AbortedMvccConflict), plans, db)
  {
    var hits := Hits(b.readToTxIDs, conflicts);
    var hit := Pruned(b, hits, AbortedMvccConflict);
    LiveWritesAfterBulk(b.nonBlind, plans, Versioned, b, hits, AbortedMvccConflict);
    LiveWritesAfterBulk(b.blind, plans, Blind, b, hits, AbortedMvccConflict);
    LiveWritesAfterBulk(b.newWrites, plans, Inserted, b, hits, AbortedMvccConflict);
    StartExplained(v, plans, db, b, conflicts);
    forall id ensures BulkHolds(db.states, LiveOps(hit, plans, id)) {
      if id !in hit.invalid {
        NotHitIsFresh(v, plans, db.states, conflicts, id);
      }
    }
  }

  lemma PlacementIsFine(b: Batch, plans: map<TxId, Plan>, db: Db, nonBlind: TxWrites, newWrites: TxWrites)
    requires Checked(b, plans, db) && Placed(db.states, b.nonBlind, b.blind, b.newWrites, nonBlind, newWrites)
    ensures Fine(b.(nonBlind := nonBlind, newWrites := newWrites, blind := map[]), plans, db)
  {
    var now := b.(nonBlind := nonBlind, newWrites := newWrites, blind := map[]);
    PlacedLive(b, plans, db.states, nonBlind, newWrites);
    forall id ensures BulkHolds(db.states, LiveOps(now, plans, id)) {
      assert LiveOps(now, plans, id) == LiveOps(b, plans, id);
    }
  }

  lemma StartExplained(v: View, plans: map<TxId, Plan>, db: Db, b: Batch, conflicts: map<Ns, seq<Read>>)
    requires Reflects(v, plans) && WellFormed(plans) && BulkConflicts(v, db.states, conflicts)
    requires b.readToTxIDs == v.readToTxIDs && b.invalid == v.invalid
    ensures InvalidExplained(Pruned(b, Hits(b.readToTxIDs, conflicts), AbortedMvccConflict), plans, db)
  {
    var hits := Hits(b.readToTxIDs, conflicts);
    forall id | id in hits ensures id in plans && Explained(db, plans[id], AbortedMvccConflict) {
      HitIsStale(v, plans, db.states, conflicts, id);
    }
    MoreExplained(b, plans, db, hits);
  }

  lemma MoreExplained(b: Batch, plans: map<TxId, Plan>, db: Db, hits: set<TxId>)
    requires b.invalid == (map id | id in plans && plans[id].prelim.Some? :: plans[id].prelim.value)
    requires forall id :: id in hits ==> id in plans && Explained(db, plans[id], AbortedMvccConflict)
    ensures InvalidExplained(Pruned(b, hits, AbortedMvccConflict), plans, db)
  {
  }

  // ---------------------------------------------------------------------
  // Rejected attempts.

  /** Every transaction whose ID is in the table is marked as a duplicate. */
  predicate DuplicatesMarked(b: Batch, plans: map<TxId, Plan>, db: Db) {
    forall id :: id in plans && id in db.txStatus ==> id in b.invalid && b.invalid[id] == RejectedDuplicateTxId
  }

  ghost predicate InsertsClear(b: Batch, plans: map<TxId, Plan>, db: Db) {
    forall id :: InsertsHold(db.states, LiveOps(b, plans, id))
  }

  predicate CollidingId(rows: map<TxId, Row>, statuses: seq<TxStatus>, id: TxId) {
    exists s :: s in statuses && s.id == id && Collides(rows, s)
  }

  lemma ListedCollides(b: Batch, db: Db, statuses: seq<TxStatus>, id: TxId)
    requires StatusesOf(b, statuses) && id in ListedIds(b)
    ensures CollidingId(db.txStatus, statuses, id) <==>
            id in db.txStatus && StatusFor(b, id) != RejectedDuplicateTxId
  {
    var s :| s in statuses && s.id == id;
  }

  lemma MarkDuplicates(b: Batch, plans: map<TxId, Plan>, db: Db, statuses: seq<TxStatus>, ids: seq<TxId>)
    requires StatusesOf(b, statuses) && forall id :: id in plans <==> id in ListedIds(b)
    requires forall id :: id in ids <==> CollidingId(db.txStatus, statuses, id)
    ensures DuplicatesMarked(Pruned(b, IdSet(ids), RejectedDuplicateTxId), plans, db)
  {
    var now := Pruned(b, IdSet(ids), RejectedDuplicateTxId);
    forall id | id in plans && id in db.txStatus ensures id in now.invalid && now.invalid[id] == RejectedDuplicateTxId {
      ListedCollides(b, db, statuses, id);
    }
  }

  lemma DuplicateStep(b: Batch, plans: map<TxId, Plan>, db: Db, statuses: seq<TxStatus>, ids: seq<TxId>)
    requires Fine(b, plans, db) && Keyed(plans) && StatusesOf(b, statuses)
    requires forall id :: id in plans <==> id in ListedIds(b)
    requires forall id :: id in ids <==> CollidingId(db.txStatus, statuses, id)
    ensures var now := Pruned(b, IdSet(ids), RejectedDuplicateTxId);
            && Fine(now, plans, db) && DuplicatesMarked(now, plans, db)
            && (InsertsClear(b, plans, db) ==> InsertsClear(now, plans, db))
  {
    var bad := IdSet(ids);
    assert forall id :: id in bad ==> id in plans && id in db.txStatus;
    FinePruned(b, plans, db, bad, RejectedDuplicateTxId);
    MarkDuplicates(b, plans, db, statuses, ids);
    PrunedLiveOps(b, plans, bad, RejectedDuplicateTxId);
  }

  lemma NothingCollides(b: Batch, plans: map<TxId, Plan>, db: Db, statuses: seq<TxStatus>)
    requires Fine(b, plans, db) && Keyed(plans) && StatusesOf(b, statuses)
    requires forall id :: id in plans <==> id in ListedIds(b)
    ensures (forall s :: s in statuses ==> !Collides(db.txStatus, s)) <==> DuplicatesMarked(b, plans, db)
  {
    if forall s :: s in statuses ==> !Collides(db.txStatus, s) {
      forall id | id in plans && id in db.txStatus ensures id in b.invalid && b.invalid[id] == RejectedDuplicateTxId {
        var s :| s in statuses && s.id == id;
        assert !Collides(db.txStatus, s);
      }
    }
  }

  /** Only an insert of a live transaction can hit an existing key. */
  lemma ConflictSource(b: Batch, plans: map<TxId, Plan>, db: Db, nw: NsWrites, ns: Ns, key: Key)
    returns (id: TxId, op: Op)
    requires Fine(b, plans, db) && Groups(nw, b.newWrites) && InsertConflict(db.states, nw, ns, key)
    ensures op in LiveOps(b, plans, id) && IsKind(op, Inserted) && op.loc == Loc(ns, key)
  {
    var w :| w in nw[ns] && w.key == key;
    assert In(nw, ns, w);
    id :| w in At(b.newWrites, id, ns);
    PlacementElems(true, db.states, LiveOps(b, plans, id), ns, w);
    op :| op in LiveOps(b, plans, id) && Goes(true, db.states, op) && op.loc.ns == ns && w == CellWrite(db.states, op);
    assert op.loc == Loc(ns, key);
  }

  lemma ConflictFound(b: Batch, plans: map<TxId, Plan>, db: Db, nw: NsWrites, id: TxId, op: Op)
    requires Fine(b, plans, db) && Groups(nw, b.newWrites)
    requires op in LiveOps(b, plans, id) && IsKind(op, Inserted) && op.loc in db.states
    ensures InsertConflict(db.states, nw, op.loc.ns, op.loc.key)
  {
    var w := CellWrite(db.states, op);
    assert Goes(true, db.states, op);
    PlacementElems(true, db.states, LiveOps(b, plans, id), op.loc.ns, w);
    assert w in At(b.newWrites, id, op.loc.ns);
    assert SomeTxWrites(b.newWrites, op.loc.ns, w);
    assert In(nw, op.loc.ns, w);
    assert op.loc == Loc(op.loc.ns, op.loc.key);
  }

  lemma SameLocSameTx(plans: map<TxId, Plan>, a: TxId, op: Op, b: TxId, op2: Op)
    requires ConflictFree(plans) && op in OpsAt(plans, a) && op2 in OpsAt(plans, b) && !op.ReadOp?
    ensures op.loc == op2.loc ==> a == b
  {
    if a != b { assert Independent(plans[a], plans[b]); }
  }

  lemma HitIsInserter(b: Batch, plans: map<TxId, Plan>, db: Db, nw: NsWrites, conflicts: map<Ns, seq<Read>>, id: TxId)
    requires Fine(b, plans, db) && WellFormed(plans) && Groups(nw, b.newWrites) && ReportsAll(conflicts, db.states, nw)
    requires HitBy(b.readToTxIDs, conflicts, id)
    ensures id in plans && id !in b.invalid && plans[id].prelim.None? && !Fresh(db.states, plans[id].ops)
  {
    var ns, r :| Reports(conflicts, ns, r) && Registered(b.readToTxIDs, NewCmpRead(ns, r.key, r.version), id);
    var a, op := ConflictSource(b, plans, db, nw, ns, r.key);
    assert Claims(OpsAt(plans, id), NewCmpRead(ns, r.key, None));
    var op2 :| op2 in OpsAt(plans, id) && !op2.BlindOp? && CmpOf(op2) == NewCmpRead(ns, r.key, None);
    assert op2.loc == Loc(op2.loc.ns, op2.loc.key) == op.loc;
    SameLocSameTx(plans, a, op, id, op2);
    assert !ClaimHolds(db.states, op);
  }

  lemma ConflictsRegistered(b: Batch, plans: map<TxId, Plan>, db: Db, nw: NsWrites, conflicts: map<Ns, seq<Read>>)
    requires Fine(b, plans, db) && Groups(nw, b.newWrites) && ReportsAll(conflicts, db.states, nw)
    ensures AllRegistered(b.readToTxIDs, conflicts)
  {
    forall ns, r | Reports(conflicts, ns, r) ensures NewCmpRead(ns, r.key, r.version) in b.readToTxIDs {
      var a, op := ConflictSource(b, plans, db, nw, ns, r.key);
      assert Claims(OpsAt(plans, a), NewCmpRead(ns, r.key, r.version));
      assert Registered(b.readToTxIDs, NewCmpRead(ns, r.key, r.version), a);
    }
  }

  lemma ConflictStep(b: Batch, plans: map<TxId, Plan>, db: Db, nw: NsWrites, conflicts: map<Ns, seq<Read>>)
    requires Fine(b, plans, db) && WellFormed(plans) && DuplicatesMarked(b, plans, db)
    requires Groups(nw, b.newWrites) && ReportsAll(conflicts, db.states, nw)
    ensures var now := Pruned(b, Hits(b.readToTxIDs, conflicts), AbortedMvccConflict);
            Fine(now, plans, db) && DuplicatesMarked(now, plans, db) && InsertsClear(now, plans, db)
  {
    var hits := Hits(b.readToTxIDs, conflicts);
    var now := Pruned(b, hits, AbortedMvccConflict);
    forall id | id in hits ensures id in plans && id !in b.invalid && Explained(db, plans[id], AbortedMvccConflict) {
      HitIsInserter(b, plans, db, nw, conflicts, id);
    }
    FinePruned(b, plans, db, hits, AbortedMvccConflict);
    PrunedLiveOps(b, plans, hits, AbortedMvccConflict);
    forall id, op | op in LiveOps(b, plans, id) && IsKind(op, Inserted) && op.loc in db.states ensures id in hits {
      InserterIsHit(b, plans, db, nw, conflicts, id, op);
    }
  }

  lemma InserterIsHit(b: Batch, plans: map<TxId, Plan>, db: Db, nw: NsWrites, conflicts: map<Ns, seq<Read>>, id: TxId,
                      op: Op)
    requires Fine(b, plans, db) && Groups(nw, b.newWrites) && ReportsAll(conflicts, db.states, nw)
    requires op in LiveOps(b, plans, id) && IsKind(op, Inserted) && op.loc in db.states
    ensures id in Hits(b.readToTxIDs, conflicts)
  {
    ConflictFound(b, plans, db, nw, id, op);
    var cr := NewCmpRead(op.loc.ns, op.loc.key, None);
    assert Reports(conflicts, op.loc.ns, Read(op.loc.key, None));
    assert Claims(OpsAt(plans, id), cr);
    assert Registered(b.readToTxIDs, cr, id);
  }

  lemma NoConflictIsClear(b: Batch, plans: map<TxId, Plan>, db: Db, nw: NsWrites)
    requires Fine(b, plans, db) && Groups(nw, b.newWrites)
    ensures (forall ns, key :: !InsertConflict(db.states, nw, ns, key)) <==> InsertsClear(b, plans, db)
  {
    if forall ns, key :: !InsertConflict(db.states, nw, ns, key) {
      forall id, op | op in LiveOps(b, plans, id) && IsKind(op, Inserted) ensures op.loc !in db.states {
        if op.loc in db.states { ConflictFound(b, plans, db, nw, id, op); }
      }
    } else {
      var ns, key :| InsertConflict(db.states, nw, ns, key);
      var a, op := ConflictSource(b, plans, db, nw, ns, key);
      assert !InsertsHold(db.states, LiveOps(b, plans, a));
    }
  }
}

/** A successful attempt merges the batch into the tables. */
module VcSuccess {
  import opened VcTypes
  import opened VcSerial
  import opened VcPrepare
  import opened VcDatabase
  import opened VcCommit
  import opened VcPlacement
  import opened VcInvariant

  lemma LiveOneTouch(b: Batch, plans: map<TxId, Plan>, id: TxId)
    requires AllOneTouch(plans)
    ensures OneTouch(LiveOps(b, plans, id))
  {
  }

  lemma LiveDisjoint(tw: TxWrites, b: Batch, plans: map<TxId, Plan>, insert: bool, states: States)
    requires LivePlacement(tw, b, plans, insert, states) && WellFormed(plans)
    ensures DisjointKeys(tw)
  {
    forall id, ns | id in tw && ns in tw[id] ensures DistinctKeys(tw[id][ns]) {
      assert tw[id][ns] == At(tw, id, ns) == Placement(insert, states, LiveOps(b, plans, id), ns);
      LiveOneTouch(b, plans, id);
      PlacementDistinct(insert, states, LiveOps(b, plans, id), ns);
    }
    forall i, j, ns | i in tw && j in tw && i != j && ns in tw[i] && ns in tw[j] ensures Apart(tw[i][ns], tw[j][ns]) {
      forall v, w | v in tw[i][ns] && w in tw[j][ns] ensures v.key != w.key {
        assert v in At(tw, i, ns) && w in At(tw, j, ns);
        var x := OpOf(tw, b, plans, insert, states, i, ns, v);
        var y := OpOf(tw, b, plans, insert, states, j, ns, w);
        SameLocSameTx(plans, i, x, j, y);
      }
    }
  }

  lemma OpOf(tw: TxWrites, b: Batch, plans: map<TxId, Plan>, insert: bool, states: States, id: TxId, ns: Ns,
             w: KeyWrite)
    returns (op: Op)
    requires LivePlacement(tw, b, plans, insert, states) && w in At(tw, id, ns)
    ensures op in LiveOps(b, plans, id) && op in OpsAt(plans, id)
    ensures Goes(insert, states, op) && op.loc == Loc(ns, w.key) && w == CellWrite(states, op)
  {
    PlacementElems(insert, states, LiveOps(b, plans, id), ns, w);
    op :| op in LiveOps(b, plans, id) && Goes(insert, states, op) && op.loc.ns == ns && w == CellWrite(states, op);
    assert op.loc == Loc(ns, w.key);
  }

  /** A grouped write comes from one operation of a live transaction. */
  lemma Source(tw: TxWrites, nw: NsWrites, b: Batch, plans: map<TxId, Plan>, insert: bool, states: States, ns: Ns,
               w: KeyWrite)
    returns (id: TxId, op: Op)
    requires LivePlacement(tw, b, plans, insert, states) && Groups(nw, tw) && In(nw, ns, w)
    ensures op in LiveOps(b, plans, id) && op in OpsAt(plans, id)
    ensures Goes(insert, states, op) && op.loc == Loc(ns, w.key) && w == CellWrite(states, op)
  {
    id :| w in At(tw, id, ns);
    op := OpOf(tw, b, plans, insert, states, id, ns, w);
  }

  lemma Grouped(tw: TxWrites, nw: NsWrites, b: Batch, plans: map<TxId, Plan>, insert: bool, states: States, id: TxId,
                op: Op)
    requires LivePlacement(tw, b, plans, insert, states) && Groups(nw, tw)
    requires op in LiveOps(b, plans, id) && Goes(insert, states, op)
    ensures In(nw, op.loc.ns, CellWrite(states, op))
  {
    PlacementElems(insert, states, LiveOps(b, plans, id), op.loc.ns, CellWrite(states, op));
    assert CellWrite(states, op) in At(tw, id, op.loc.ns);
    assert SomeTxWrites(tw, op.loc.ns, CellWrite(states, op));
  }

  /** A key named by the writes of one kind is written by that operation and no other. */
  lemma OnlyOp(tw: TxWrites, nw: NsWrites, b: Batch, plans: map<TxId, Plan>, insert: bool, states: States,
               id: TxId, op: Op, w: KeyWrite)
    requires LivePlacement(tw, b, plans, insert, states) && Groups(nw, tw) && WellFormed(plans)
    requires op in LiveOps(b, plans, id) && !op.ReadOp?
    requires In(nw, op.loc.ns, w) && w.key == op.loc.key
    ensures Goes(insert, states, op) && w == CellWrite(states, op)
  {
    var j, op2 := Source(tw, nw, b, plans, insert, states, op.loc.ns, w);
    assert op2.loc == op.loc;
    SameLocSameTx(plans, id, op, j, op2);
    LiveOneTouch(b, plans, id);
    if op2 != op { OpsApart(LiveOps(b, plans, id), op, op2); }
  }

  lemma LiveIsWinner(b: Batch, plans: map<TxId, Plan>, db: Db, id: TxId)
    requires Fine(b, plans, db) && Keyed(plans) && DuplicatesMarked(b, plans, db) && InsertsClear(b, plans, db)
    requires id in plans
    ensures id !in b.invalid <==> Wins(db, plans[id])
    ensures StoresRow(db, plans[id]) <==> StatusFor(b, id) != RejectedDuplicateTxId
    ensures StoresRow(db, plans[id]) ==> StatusFor(b, id) == Outcome(db.states, plans[id])
    ensures StatusFor(b, id) == RejectedDuplicateTxId && id !in db.txStatus ==>
              Outcome(db.states, plans[id]) == RejectedDuplicateTxId
  {
    FreshIsBoth(db.states, plans[id].ops);
    if id !in b.invalid {
      assert LiveOps(b, plans, id) == plans[id].ops;
      assert BulkHolds(db.states, LiveOps(b, plans, id)) && InsertsHold(db.states, LiveOps(b, plans, id));
    } else {
      assert Explained(db, plans[id], b.invalid[id]);
    }
  }

  lemma RowsMerge(b: Batch, plans: map<TxId, Plan>, db: Db, statuses: seq<TxStatus>, after: map<TxId, Row>)
    requires Fine(b, plans, db) && Keyed(plans) && DuplicatesMarked(b, plans, db) && InsertsClear(b, plans, db)
    requires StatusesOf(b, statuses) && (forall id :: id in plans <==> id in ListedIds(b))
    requires forall id :: id in plans ==> id in b.heights && b.heights[id] == plans[id].height
    requires RowsFor(db.txStatus, statuses, after)
    ensures MergedRows(db, plans, after)
  {
    forall id | id in plans
      ensures StoresRow(db, plans[id]) <==> exists s :: s in statuses && s.id == id && s.status != RejectedDuplicateTxId
      ensures StoresRow(db, plans[id]) ==>
                id in after && after[id] == Row(Outcome(db.states, plans[id]), plans[id].height)
    {
      LiveIsWinner(b, plans, db, id);
      var s :| s in statuses && s.id == id;
      assert s == TxStatus(id, b.heights[id], StatusFor(b, id));
    }
    forall id ensures id in after <==> id in db.txStatus || (id in plans && StoresRow(db, plans[id])) {
      if s :| s in statuses && s.id == id && s.status != RejectedDuplicateTxId {
        assert id in plans;
      }
    }
  }

  lemma EffectMerges(b: Batch, plans: map<TxId, Plan>, db: Db, a: Attempt, mid: States, after: States, id: TxId, op: Op)
    requires Fine(b, plans, db) && WellFormed(plans) && InsertsClear(b, plans, db)
    requires Groups(a.updateWrites, b.nonBlind) && Groups(a.newWrites, b.newWrites) && AllDistinct(a.newWrites)
    requires InsertedInto(db.states, a.newWrites, mid) && UpdatedInto(mid, a.updateWrites, after)
    requires op in LiveOps(b, plans, id) && !op.ReadOp?
    ensures op.loc in after && after[op.loc] == EffectOf(db.states, op)
  {
    var loc, w := op.loc, CellWrite(db.states, op);
    assert loc == Loc(loc.ns, loc.key);
    if Goes(true, db.states, op) {
      Grouped(b.newWrites, a.newWrites, b, plans, true, db.states, id, op);
      assert mid[loc] == Cell(w.value, 0);
      forall x | In(a.updateWrites, loc.ns, x) ensures x.key != loc.key {
        if x.key == loc.key { OnlyOp(b.nonBlind, a.updateWrites, b, plans, false, db.states, id, op, x); }
      }
      assert !NamesLoc(a.updateWrites, loc);
    } else {
      assert Goes(false, db.states, op);
      Grouped(b.nonBlind, a.updateWrites, b, plans, false, db.states, id, op);
      forall x | In(a.newWrites, loc.ns, x) ensures x.key != loc.key {
        if x.key == loc.key { OnlyOp(b.newWrites, a.newWrites, b, plans, true, db.states, id, op, x); }
      }
      assert !NamesLoc(a.newWrites, loc);
      assert SameAt(db.states, mid, loc);
      assert loc in db.states by {
        assert BulkHolds(db.states, LiveOps(b, plans, id));
        assert ClaimHolds(db.states, op);
      }
      assert NamesLoc(a.updateWrites, loc);
      var x :| x in a.updateWrites[loc.ns] && x.key == loc.key && after[loc] == Cell(x.value, x.version);
      OnlyOp(b.nonBlind, a.updateWrites, b, plans, false, db.states, id, op, x);
    }
  }

  lemma NamedIsWritten(tw: TxWrites, nw: NsWrites, b: Batch, plans: map<TxId, Plan>, db: Db, insert: bool, loc: Loc)
    requires Fine(b, plans, db) && Keyed(plans) && DuplicatesMarked(b, plans, db) && InsertsClear(b, plans, db)
    requires LivePlacement(tw, b, plans, insert, db.states) && Groups(nw, tw) && NamesLoc(nw, loc)
    ensures WrittenBy(db, plans, loc)
  {
    var w :| w in nw[loc.ns] && w.key == loc.key;
    assert In(nw, loc.ns, w);
    var id, op := Source(tw, nw, b, plans, insert, db.states, loc.ns, w);
    LiveIsWinner(b, plans, db, id);
    assert WritesTo(op, loc) && op in plans[id].ops;
    assert Writes(plans[id].ops, loc);
  }

  lemma StatesMerge(b: Batch, plans: map<TxId, Plan>, db: Db, a: Attempt, after: States)
    requires Fine(b, plans, db) && WellFormed(plans) && DuplicatesMarked(b, plans, db) && InsertsClear(b, plans, db)
    requires Groups(a.updateWrites, b.nonBlind) && Groups(a.newWrites, b.newWrites) && AllDistinct(a.newWrites)
    requires Written(db.states, a, after)
    ensures MergedStates(db, plans, after)
  {
    var mid :| InsertedInto(db.states, a.newWrites, mid) && UpdatedInto(mid, a.updateWrites, after);
    forall id | id in plans && Wins(db, plans[id]) ensures Effects(db.states, plans[id].ops, after) {
      LiveIsWinner(b, plans, db, id);
      forall op | op in plans[id].ops && !op.ReadOp?
        ensures op.loc in after && after[op.loc] == EffectOf(db.states, op)
      {
        EffectMerges(b, plans, db, a, mid, after, id, op);
      }
    }
    forall loc | !WrittenBy(db, plans, loc) ensures SameAt(db.states, after, loc) {
      if NamesLoc(a.newWrites, loc) { NamedIsWritten(b.newWrites, a.newWrites, b, plans, db, true, loc); }
      if NamesLoc(a.updateWrites, loc) { NamedIsWritten(b.nonBlind, a.updateWrites, b, plans, db, false, loc); }
      assert SameAt(db.states, mid, loc);
    }
  }
}
