/** The data of the validator-committer (service/vc), and the reference it is proved against:
    one transaction at a time, alone, against the tables. */
module VcTypes {
  import opened Common

  type TxId = string
  type Ns = string
  type Key = string
  type Value = string

  type Version = Uint64

  const META_NS: Ns := "_meta"
  const CONFIG_NS: Ns := "_config"
  const SNAPSHOT_NS: Ns := "_snapshot"
  const CHECKPOINT_NS: Ns := "_checkpoint"
  const CONFIG_KEY: Key := "_config"

  /** The statuses this service gives a meaning to; every other code is kept as it comes. */
  datatype Status =
    | Committed
    | AbortedMvccConflict
    | RejectedDuplicateTxId
    | Other(code: nat)

  datatype Read = Read(key: Key, version: Option<Version>)
  datatype ReadWrite = ReadWrite(key: Key, version: Option<Version>, value: Value)
  datatype BlindWrite = BlindWrite(key: Key, value: Value)
  datatype TxNamespace = TxNamespace(
    nsId: Ns, nsVersion: Version,
    readsOnly: seq<Read>, readWrites: seq<ReadWrite>, blindWrites: seq<BlindWrite>)

  /** A transaction as the coordinator submits it; prelim is a status decided before this service. */
  datatype VcTx = VcTx(id: TxId, height: Height, prelim: Option<Status>, namespaces: seq<TxNamespace>)

  // ---------------------------------------------------------------------
  // Tables.

  datatype Loc = Loc(ns: Ns, key: Key)
  datatype Cell = Cell(value: Value, version: Version)
  datatype Row = Row(status: Status, height: Height)

  type States = map<Loc, Cell>

  datatype Db = Db(states: States, txStatus: map<TxId, Row>)

  function VersionAt(states: States, loc: Loc): Option<Version> {
    if loc in states then Some(states[loc].version) else None
  }

  /** uint64 addition wraps. */
  function NextVersion(v: Version): Version {
    (v + 1) % TWO_TO_THE_64
  }

  // ---------------------------------------------------------------------
  // What one transaction does, as a flat list of operations.

  datatype Op =
    | ReadOp(loc: Loc, version: Option<Version>)
    | RwOp(loc: Loc, version: Option<Version>, value: Value)
    | BlindOp(loc: Loc, value: Value)

  function ReadOps(ns: Ns, rs: seq<Read>): (ops: seq<Op>)
    ensures |ops| == |rs|
  {
    seq(|rs|, i requires 0 <= i < |rs| => ReadOp(Loc(ns, rs[i].key), rs[i].version))
  }

  function RwOps(ns: Ns, rws: seq<ReadWrite>): (ops: seq<Op>)
    ensures |ops| == |rws|
  {
    seq(|rws|, i requires 0 <= i < |rws| => RwOp(Loc(ns, rws[i].key), rws[i].version, rws[i].value))
  }

  function BlindOps(ns: Ns, ws: seq<BlindWrite>): (ops: seq<Op>)
    ensures |ops| == |ws|
  {
    seq(|ws|, i requires 0 <= i < |ws| => BlindOp(Loc(ns, ws[i].key), ws[i].value))
  }

  function NsOps(ns: TxNamespace): seq<Op> {
    ReadOps(ns.nsId, ns.readsOnly) + RwOps(ns.nsId, ns.readWrites) + BlindOps(ns.nsId, ns.blindWrites)
  }

  /** The version dependency a namespace adds: a data namespace reads its own entry in the meta
      namespace, the meta namespace reads the config entry, the other system namespaces none. */
  function ImplicitReads(ns: TxNamespace): (Ns, seq<Read>) {
    if ns.nsId == META_NS then (CONFIG_NS, [Read(CONFIG_KEY, Some(ns.nsVersion))])
    else if ns.nsId == CONFIG_NS || ns.nsId == CHECKPOINT_NS then (META_NS, [])
    else (META_NS, [Read(ns.nsId, Some(ns.nsVersion))])
  }

  /** A snapshot marker becomes one insert keyed by the transaction's own ID. */
  function OpsOfNamespace(id: TxId, ns: TxNamespace): seq<Op> {
    if ns.nsId == SNAPSHOT_NS then [RwOp(Loc(SNAPSHOT_NS, id), None, id)]
    else NsOps(ns) + ReadOps(ImplicitReads(ns).0, ImplicitReads(ns).1)
  }

  function OpsOf(id: TxId, namespaces: seq<TxNamespace>): seq<Op> {
    if namespaces == [] then []
    else OpsOf(id, namespaces[..|namespaces| - 1]) + OpsOfNamespace(id, namespaces[|namespaces| - 1])
  }

  /** A transaction reduced to what decides its fate. */
  datatype Plan = Plan(id: TxId, height: Height, prelim: Option<Status>, ops: seq<Op>)

  function PlanOf(tx: VcTx): Plan {
    Plan(tx.id, tx.height, tx.prelim, OpsOf(tx.id, tx.namespaces))
  }

  /** What the operation assumes about the committed version of its key holds. */
  predicate ClaimHolds(states: States, op: Op) {
    op.BlindOp? || VersionAt(states, op.loc) == op.version
  }

  predicate Fresh(states: States, ops: seq<Op>) {
    forall op :: op in ops ==> ClaimHolds(states, op)
  }

  predicate WritesTo(op: Op, loc: Loc) {
    !op.ReadOp? && op.loc == loc
  }

  predicate Writes(ops: seq<Op>, loc: Loc) {
    exists op :: op in ops && WritesTo(op, loc)
  }

  /** The cell a write leaves, given the states before it. */
  function EffectOf(states: States, op: Op): Cell
    requires !op.ReadOp?
  {
    match op
    case RwOp(_, Some(v), value) => Cell(value, NextVersion(v))
    case RwOp(_, None, value) => Cell(value, 0)
    case BlindOp(loc, value) =>
      Cell(value, if loc in states then NextVersion(states[loc].version) else 0)
  }

  function Apply(states: States, ops: seq<Op>): States {
    if ops == [] then states else
      var before := Apply(states, ops[..|ops| - 1]);
      var op := ops[|ops| - 1];
      if op.ReadOp? then before else before[op.loc := EffectOf(before, op)]
  }

  // ---------------------------------------------------------------------
  // The reference: each transaction alone.

  function Outcome(states: States, p: Plan): Status {
    match p.prelim
    case Some(status) => status
    case None => if Fresh(states, p.ops) then Committed else AbortedMvccConflict
  }

  /** A known ID keeps its stored status at its own height and is a duplicate at any other; a
      duplicate status is never stored. */
  function RunAlone(db: Db, p: Plan): (Db, Status) {
    if p.id in db.txStatus then
      (db, if db.txStatus[p.id].height == p.height then db.txStatus[p.id].status else RejectedDuplicateTxId)
    else if p.prelim == Some(RejectedDuplicateTxId) then
      (db, RejectedDuplicateTxId)
    else
      var status := Outcome(db.states, p);
      var states := if p.prelim.None? && status == Committed then Apply(db.states, p.ops) else db.states;
      (Db(states, db.txStatus[p.id := Row(status, p.height)]), status)
  }

  function RunSerial(db: Db, order: seq<Plan>): (Db, seq<Status>) {
    if order == [] then (db, []) else
      var (before, statuses) := RunSerial(db, order[..|order| - 1]);
      var (after, status) := RunAlone(before, order[|order| - 1]);
      (after, statuses + [status])
  }

  // ---------------------------------------------------------------------
  // Batches.

  /** The batch by ID, keeping the first occurrence of each. */
  function ById(batch: seq<VcTx>): (txs: map<TxId, Plan>)
    ensures forall id :: id in txs ==> txs[id].id == id
    ensures forall tx :: tx in batch ==> tx.id in txs
    ensures forall id :: id in txs ==> exists tx :: tx in batch && txs[id] == PlanOf(tx)
  {
    if batch == [] then map[] else
      var txs := ById(batch[..|batch| - 1]);
      var tx := batch[|batch| - 1];
      assert batch == batch[..|batch| - 1] + [tx];
      if tx.id in txs then txs else txs[tx.id := PlanOf(tx)]
  }

  /** Equal IDs mean the same transaction. */
  predicate IdsAgree(batch: seq<VcTx>) {
    forall s, t :: s in batch && t in batch && s.id == t.id ==> s == t
  }

  /** No transaction writes a key that another one of the batch reads or writes. */
  predicate ConflictFree(txs: map<TxId, Plan>) {
    forall a, b :: a in txs && b in txs && a != b ==> Independent(txs[a], txs[b])
  }

  predicate Independent(p: Plan, q: Plan) {
    p.prelim.None? && q.prelim.None? ==>
      forall op, op2 :: op in p.ops && op2 in q.ops && !op.ReadOp? ==> op.loc != op2.loc
  }

  /** Inside one transaction a key is touched once, apart from the versioned reads its namespaces
      add. */
  predicate OneTouch(ops: seq<Op>) {
    forall i, j :: 0 <= i < j < |ops| && ops[i].loc == ops[j].loc ==>
      (ops[i].ReadOp? && ops[i].version.Some?) || (ops[j].ReadOp? && ops[j].version.Some?)
  }

  predicate AllOneTouch(txs: map<TxId, Plan>) {
    forall id :: id in txs && txs[id].prelim.None? ==> OneTouch(txs[id].ops)
  }

  /** The ID is new and nothing stops the writes. */
  predicate Wins(db: Db, p: Plan) {
    p.id !in db.txStatus && p.prelim.None? && Fresh(db.states, p.ops)
  }

  predicate WrittenBy(db: Db, txs: map<TxId, Plan>, loc: Loc) {
    exists id :: id in txs && Wins(db, txs[id]) && Writes(txs[id].ops, loc)
  }

  /** The status a transaction is reported with, decided against the tables before the batch. */
  function Reported(db: Db, p: Plan): Status {
    if p.id in db.txStatus then
      if db.txStatus[p.id].height == p.height then db.txStatus[p.id].status else RejectedDuplicateTxId
    else Outcome(db.states, p)
  }

  predicate StoresRow(db: Db, p: Plan) {
    p.id !in db.txStatus && p.prelim != Some(RejectedDuplicateTxId)
  }

  predicate SameAt(a: States, b: States, loc: Loc) {
    (loc in a <==> loc in b) && (loc in a ==> a[loc] == b[loc])
  }

  /** after is before with the row of every new transaction of txs, and no other change. */
  ghost predicate MergedRows(before: Db, txs: map<TxId, Plan>, after: map<TxId, Row>) {
    && (forall id :: id in after <==> id in before.txStatus || (id in txs && StoresRow(before, txs[id])))
    && (forall id :: id in before.txStatus ==> after[id] == before.txStatus[id])
    && (forall id :: id in txs && StoresRow(before, txs[id]) ==>
          after[id] == Row(Outcome(before.states, txs[id]), txs[id].height))
  }

  predicate Effects(before: States, ops: seq<Op>, after: States) {
    forall op :: op in ops && !op.ReadOp? ==> op.loc in after && after[op.loc] == EffectOf(before, op)
  }

  /** after is before with every winning write of txs, and no other change. */
  ghost predicate MergedStates(before: Db, txs: map<TxId, Plan>, after: States) {
    && (forall id :: id in txs && Wins(before, txs[id]) ==> Effects(before.states, txs[id].ops, after))
    && (forall loc :: !WrittenBy(before, txs, loc) ==> SameAt(before.states, after, loc))
  }

  ghost predicate Merged(before: Db, txs: map<TxId, Plan>, after: Db) {
    MergedRows(before, txs, after.txStatus) && MergedStates(before, txs, after.states)
  }
}

/** Serial runs of a conflict-free batch: every order gives the same tables and statuses. */
module VcSerial {
  import opened VcTypes

  lemma {:induction false} ApplyPointwise(states: States, ops: seq<Op>)
    requires OneTouch(ops)
    ensures Effects(states, ops, Apply(states, ops))
    ensures forall loc :: !Writes(ops, loc) ==> SameAt(states, Apply(states, ops), loc)
  {
    if ops != [] {
      var front, last := ops[..|ops| - 1], ops[|ops| - 1];
      assert ops == front + [last];
      ApplyPointwise(states, front);
      if !last.ReadOp? {
        assert !Writes(front, last.loc) by {
          forall op | op in front ensures !WritesTo(op, last.loc) {
            var i :| 0 <= i < |front| && front[i] == op;
            assert ops[i] == op && ops[|ops| - 1] == last;
          }
        }
        assert SameAt(states, Apply(states, front), last.loc);
      }
      forall loc | !Writes(ops, loc) ensures SameAt(states, Apply(states, ops), loc) {
        assert !Writes(front, loc) by {
          forall op | op in front ensures !WritesTo(op, loc) { assert op in ops; }
        }
        assert last in ops && !WritesTo(last, loc);
      }
    }
  }

  lemma MergedIsUnique(before: Db, txs: map<TxId, Plan>, a: Db, b: Db)
    requires Merged(before, txs, a) && Merged(before, txs, b)
    ensures a == b
  {
    MergedStatesUnique(before, txs, a.states, b.states);
    assert a.txStatus.Keys == b.txStatus.Keys;
    assert a.txStatus == b.txStatus;
  }

  lemma MergedStatesUnique(before: Db, txs: map<TxId, Plan>, a: States, b: States)
    requires MergedStates(before, txs, a) && MergedStates(before, txs, b)
    ensures a == b
  {
    forall loc ensures SameAt(a, b, loc) {
      if WrittenBy(before, txs, loc) {
        var id :| id in txs && Wins(before, txs[id]) && Writes(txs[id].ops, loc);
        var op :| op in txs[id].ops && WritesTo(op, loc);
      } else {
        assert SameAt(before.states, a, loc) && SameAt(before.states, b, loc);
      }
    }
    assert forall loc :: (loc in a <==> loc in b) by {
      forall loc ensures loc in a <==> loc in b { assert SameAt(a, b, loc); }
    }
    forall loc | loc in a ensures a[loc] == b[loc] { assert SameAt(a, b, loc); }
  }

  /** Before its turn, a transaction sees its own keys as they were before the batch. */
  lemma UntouchedClaims(before: Db, all: map<TxId, Plan>, done: map<TxId, Plan>, states: States, p: Plan)
    requires ConflictFree(all) && MergedStates(before, done, states)
    requires forall id :: id in done ==> id in all && all[id] == done[id]
    requires p.id in all && all[p.id] == p && p.id !in done && p.prelim.None?
    ensures forall op :: op in p.ops ==> SameAt(before.states, states, op.loc)
  {
    forall op | op in p.ops ensures SameAt(before.states, states, op.loc) {
      forall id | id in done && Wins(before, done[id]) ensures !Writes(done[id].ops, op.loc) {
        assert Independent(all[id], all[p.id]);
      }
      assert !WrittenBy(before, done, op.loc);
    }
  }

  lemma WrittenByGrows(before: Db, done: map<TxId, Plan>, p: Plan, loc: Loc)
    requires p.id !in done
    ensures WrittenBy(before, done[p.id := p], loc) <==>
            WrittenBy(before, done, loc) || (Wins(before, p) && Writes(p.ops, loc))
  {
    var now := done[p.id := p];
    if WrittenBy(before, done, loc) {
      var id :| id in done && Wins(before, done[id]) && Writes(done[id].ops, loc);
      assert id in now && now[id] == done[id];
    } else if Wins(before, p) && Writes(p.ops, loc) {
      assert p.id in now && now[p.id] == p;
    }
  }

  lemma StatesStep(before: Db, all: map<TxId, Plan>, done: map<TxId, Plan>, states: States, p: Plan)
    requires ConflictFree(all) && MergedStates(before, done, states)
    requires forall id :: id in done ==> id in all && all[id] == done[id]
    requires p.id in all && all[p.id] == p && p.id !in done
    requires p.prelim.None? ==> OneTouch(p.ops)
    ensures MergedStates(before, done[p.id := p], if Wins(before, p) then Apply(states, p.ops) else states)
  {
    var now := done[p.id := p];
    forall loc ensures WrittenBy(before, now, loc) <==>
      WrittenBy(before, done, loc) || (Wins(before, p) && Writes(p.ops, loc))
    {
      WrittenByGrows(before, done, p, loc);
    }
    if Wins(before, p) {
      var after := Apply(states, p.ops);
      UntouchedClaims(before, all, done, states, p);
      ApplyPointwise(states, p.ops);
      forall id | id in done && Wins(before, done[id]) ensures Effects(before.states, done[id].ops, after) {
        KeepsEffects(before, states, p, done[id], after) by { assert Independent(all[id], all[p.id]); }
      }
      assert Effects(before.states, p.ops, after);
    }
  }

  lemma KeepsEffects(before: Db, states: States, p: Plan, q: Plan, after: States)
    requires Effects(before.states, q.ops, states) && Independent(q, p) && p.prelim.None? && q.prelim.None?
    requires forall loc :: !Writes(p.ops, loc) ==> SameAt(states, after, loc)
    ensures Effects(before.states, q.ops, after)
  {
    forall op | op in q.ops && !op.ReadOp?
      ensures op.loc in after && after[op.loc] == EffectOf(before.states, op)
    {
      assert !Writes(p.ops, op.loc);
      assert SameAt(states, after, op.loc);
    }
  }

  lemma RowsStep(before: Db, done: map<TxId, Plan>, rows: map<TxId, Row>, p: Plan)
    requires MergedRows(before, done, rows) && p.id !in done
    ensures MergedRows(before, done[p.id := p],
              if StoresRow(before, p) then rows[p.id := Row(Outcome(before.states, p), p.height)] else rows)
  {
    var now := done[p.id := p];
    assert forall id :: id in now <==> id in done || id == p.id;
    assert forall id :: id in done ==> now[id] == done[id];
  }

  lemma SerialStep(before: Db, all: map<TxId, Plan>, done: map<TxId, Plan>, db: Db, p: Plan)
    requires ConflictFree(all) && Merged(before, done, db)
    requires forall id :: id in done ==> id in all && all[id] == done[id]
    requires p.id in all && all[p.id] == p
    requires p.prelim.None? ==> OneTouch(p.ops)
    ensures Merged(before, done[p.id := p], RunAlone(db, p).0)
    ensures RunAlone(db, p).1 == Reported(before, p)
  {
    if p.id in done {
      assert done[p.id := p] == done;
      assert RunAlone(db, p).0 == db;
    } else {
      assert p.id in db.txStatus <==> p.id in before.txStatus;
      SameOutcome(before, all, done, db, p);
      RowsStep(before, done, db.txStatus, p);
      StatesStep(before, all, done, db.states, p);
    }
  }

  lemma SameOutcome(before: Db, all: map<TxId, Plan>, done: map<TxId, Plan>, db: Db, p: Plan)
    requires ConflictFree(all) && MergedStates(before, done, db.states)
    requires forall id :: id in done ==> id in all && all[id] == done[id]
    requires p.id in all && all[p.id] == p && p.id !in done
    ensures Outcome(db.states, p) == Outcome(before.states, p)
  {
    if p.prelim.None? {
      UntouchedClaims(before, all, done, db.states, p);
      assert forall op :: op in p.ops ==> ClaimHolds(db.states, op) == ClaimHolds(before.states, op);
    }
  }

  function Covered(all: map<TxId, Plan>, order: seq<Plan>): map<TxId, Plan> {
    map id | id in all && all[id] in order :: all[id]
  }

  predicate Keyed(all: map<TxId, Plan>) {
    forall id :: id in all ==> all[id].id == id
  }

  lemma CoveredSnoc(all: map<TxId, Plan>, front: seq<Plan>, last: Plan)
    requires Keyed(all) && last.id in all && all[last.id] == last
    ensures Covered(all, front + [last]) == Covered(all, front)[last.id := last]
  {
  }

  /** Every order of the batch, with repetitions, leads to the merged tables, and each run of a
      transaction reports the status decided against the tables before the batch. */
  lemma {:induction false} SerialMerges(before: Db, all: map<TxId, Plan>, order: seq<Plan>)
    requires ConflictFree(all) && AllOneTouch(all) && Keyed(all)
    requires forall p :: p in order ==> p.id in all && all[p.id] == p
    ensures |RunSerial(before, order).1| == |order|
    ensures forall i :: 0 <= i < |order| ==> RunSerial(before, order).1[i] == Reported(before, order[i])
    ensures Merged(before, Covered(all, order), RunSerial(before, order).0)
  {
    if order == [] {
      assert Covered(all, order) == map[];
    } else {
      var front, last := order[..|order| - 1], order[|order| - 1];
      assert order == front + [last];
      SerialMerges(before, all, front);
      CoveredSnoc(all, front, last);
      SerialStep(before, all, Covered(all, front), RunSerial(before, front).0, last);
    }
  }
}
