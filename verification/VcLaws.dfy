/** What a batch does to the tables, said of its transactions as they were submitted. */
module VcLaws {
  import opened Common
  import opened VcTypes

  /** The committed version of a key is the given one; None stands for an absent key. */
  predicate VersionIs(states: States, ns: Ns, key: Key, version: Option<Version>) {
    match version
    case None => Loc(ns, key) !in states
    case Some(v) => Loc(ns, key) in states && states[Loc(ns, key)].version == v
  }

  /** Nothing of the namespace is stale: neither what it read, nor the namespace's own version, which is that
      of its entry in the meta namespace, and for the meta namespace that of the config entry. */
  predicate NsCurrent(states: States, id: TxId, ns: TxNamespace) {
    if ns.nsId == SNAPSHOT_NS then Loc(SNAPSHOT_NS, id) !in states else
    && (forall r :: r in ns.readsOnly ==> VersionIs(states, ns.nsId, r.key, r.version))
    && (forall w :: w in ns.readWrites ==> VersionIs(states, ns.nsId, w.key, w.version))
    && (ns.nsId == META_NS ==> VersionIs(states, CONFIG_NS, CONFIG_KEY, Some(ns.nsVersion)))
    && (ns.nsId != META_NS && ns.nsId != CONFIG_NS && ns.nsId != CHECKPOINT_NS ==>
          VersionIs(states, META_NS, ns.nsId, Some(ns.nsVersion)))
  }

  predicate Current(states: States, tx: VcTx) {
    forall ns :: ns in tx.namespaces ==> NsCurrent(states, tx.id, ns)
  }

  /** The key holds the value, one version after the one it had, or version 0 when it was absent. */
  predicate Wrote(before: States, after: States, loc: Loc, value: Value) {
    && loc in after && after[loc].value == value
    && (loc !in before ==> after[loc].version == 0)
    && (loc in before && before[loc].version < TWO_TO_THE_64 - 1 ==> after[loc].version == before[loc].version + 1)
    && (loc in before && before[loc].version == TWO_TO_THE_64 - 1 ==> after[loc].version == 0)
  }

  predicate NsWrote(before: States, after: States, id: TxId, ns: TxNamespace) {
    if ns.nsId == SNAPSHOT_NS then Wrote(before, after, Loc(SNAPSHOT_NS, id), id) else
    && (forall w :: w in ns.readWrites ==> Wrote(before, after, Loc(ns.nsId, w.key), w.value))
    && (forall w :: w in ns.blindWrites ==> Wrote(before, after, Loc(ns.nsId, w.key), w.value))
  }

  predicate NsWrites(id: TxId, ns: TxNamespace, loc: Loc) {
    if ns.nsId == SNAPSHOT_NS then loc == Loc(SNAPSHOT_NS, id) else
    loc.ns == ns.nsId && ((exists w :: w in ns.readWrites && w.key == loc.key)
                          || exists w :: w in ns.blindWrites && w.key == loc.key)
  }

  predicate TxWritesTo(tx: VcTx, loc: Loc) {
    exists ns :: ns in tx.namespaces && NsWrites(tx.id, ns, loc)
  }

  // ---------------------------------------------------------------------
  // From operations to what was submitted.

  lemma FreshConcat(states: States, a: seq<Op>, b: seq<Op>)
    ensures Fresh(states, a + b) <==> Fresh(states, a) && Fresh(states, b)
  {
    assert forall op :: op in a + b <==> op in a || op in b;
  }

  lemma FreshReads(states: States, ns: Ns, rs: seq<Read>)
    ensures Fresh(states, ReadOps(ns, rs)) <==> forall r :: r in rs ==> VersionIs(states, ns, r.key, r.version)
  {
    var ops := ReadOps(ns, rs);
    forall i | 0 <= i < |rs|
      ensures rs[i] in rs && ops[i] in ops
      ensures ClaimHolds(states, ops[i]) <==> VersionIs(states, ns, rs[i].key, rs[i].version)
    {
    }
  }

  lemma FreshRws(states: States, ns: Ns, rws: seq<ReadWrite>)
    ensures Fresh(states, RwOps(ns, rws)) <==> forall w :: w in rws ==> VersionIs(states, ns, w.key, w.version)
  {
    var ops := RwOps(ns, rws);
    forall i | 0 <= i < |rws|
      ensures rws[i] in rws && ops[i] in ops
      ensures ClaimHolds(states, ops[i]) <==> VersionIs(states, ns, rws[i].key, rws[i].version)
    {
    }
  }

  lemma FreshImplicit(states: States, ns: TxNamespace)
    ensures Fresh(states, ReadOps(ImplicitReads(ns).0, ImplicitReads(ns).1)) <==>
            && (ns.nsId == META_NS ==> VersionIs(states, CONFIG_NS, CONFIG_KEY, Some(ns.nsVersion)))
            && (ns.nsId != META_NS && ns.nsId != CONFIG_NS && ns.nsId != CHECKPOINT_NS ==>
                  VersionIs(states, META_NS, ns.nsId, Some(ns.nsVersion)))
  {
    FreshReads(states, ImplicitReads(ns).0, ImplicitReads(ns).1);
    assert Read(CONFIG_KEY, Some(ns.nsVersion)) in [Read(CONFIG_KEY, Some(ns.nsVersion))];
    assert Read(ns.nsId, Some(ns.nsVersion)) in [Read(ns.nsId, Some(ns.nsVersion))];
  }

  lemma FreshNamespace(states: States, id: TxId, ns: TxNamespace)
    ensures Fresh(states, OpsOfNamespace(id, ns)) <==> NsCurrent(states, id, ns)
  {
    if ns.nsId == SNAPSHOT_NS {
      assert OpsOfNamespace(id, ns)[0] in OpsOfNamespace(id, ns);
    } else {
      var rs, rws := ReadOps(ns.nsId, ns.readsOnly), RwOps(ns.nsId, ns.readWrites);
      var ws := BlindOps(ns.nsId, ns.blindWrites);
      FreshConcat(states, NsOps(ns), ReadOps(ImplicitReads(ns).0, ImplicitReads(ns).1));
      FreshConcat(states, rs + rws, ws);
      FreshConcat(states, rs, rws);
      FreshReads(states, ns.nsId, ns.readsOnly);
      FreshRws(states, ns.nsId, ns.readWrites);
      FreshImplicit(states, ns);
      assert Fresh(states, ws);
    }
  }

  lemma AllButLast(states: States, id: TxId, nss: seq<TxNamespace>)
    requires nss != []
    ensures var n := |nss| - 1;
            (forall ns :: ns in nss ==> NsCurrent(states, id, ns)) <==>
            NsCurrent(states, id, nss[n]) && forall ns :: ns in nss[..n] ==> NsCurrent(states, id, ns)
  {
    var n := |nss| - 1;
    assert nss == nss[..n] + [nss[n]];
  }

  lemma {:induction false} FreshIsCurrent(states: States, id: TxId, nss: seq<TxNamespace>)
    ensures Fresh(states, OpsOf(id, nss)) <==> forall ns :: ns in nss ==> NsCurrent(states, id, ns)
  {
    if nss != [] {
      var n := |nss| - 1;
      FreshIsCurrent(states, id, nss[..n]);
      FreshNamespace(states, id, nss[n]);
      FreshConcat(states, OpsOf(id, nss[..n]), OpsOfNamespace(id, nss[n]));
      AllButLast(states, id, nss);
    }
  }

  lemma OpsOfHas(id: TxId, nss: seq<TxNamespace>, ns: TxNamespace, op: Op)
    requires ns in nss && op in OpsOfNamespace(id, ns)
    ensures op in OpsOf(id, nss)
  {
    var n := |nss| - 1;
    if ns != nss[n] {
      assert nss == nss[..n] + [nss[n]];
      OpsOfHas(id, nss[..n], ns, op);
    }
  }

  lemma OpsOfFrom(id: TxId, nss: seq<TxNamespace>, op: Op) returns (ns: TxNamespace)
    requires op in OpsOf(id, nss)
    ensures ns in nss && op in OpsOfNamespace(id, ns)
  {
    var n := |nss| - 1;
    if op in OpsOfNamespace(id, nss[n]) {
      ns := nss[n];
    } else {
      ns := OpsOfFrom(id, nss[..n], op);
    }
  }

  /** A write that goes through advances the version of its key. */
  lemma EffectAdvances(before: States, op: Op, after: States)
    requires !op.ReadOp? && ClaimHolds(before, op) && op.loc in after && after[op.loc] == EffectOf(before, op)
    ensures Wrote(before, after, op.loc, op.value)
  {
  }

  lemma NamespaceWrote(before: States, after: States, id: TxId, ns: TxNamespace)
    requires Fresh(before, OpsOfNamespace(id, ns)) && Effects(before, OpsOfNamespace(id, ns), after)
    ensures NsWrote(before, after, id, ns)
  {
    var ops := OpsOfNamespace(id, ns);
    if ns.nsId == SNAPSHOT_NS {
      assert ops[0] in ops;
      EffectAdvances(before, ops[0], after);
    } else {
      forall w | w in ns.readWrites ensures Wrote(before, after, Loc(ns.nsId, w.key), w.value) {
        var op := RwWriteIsOp(id, ns, w);
        EffectAdvances(before, op, after);
      }
      forall w | w in ns.blindWrites ensures Wrote(before, after, Loc(ns.nsId, w.key), w.value) {
        var op := BlindWriteIsOp(id, ns, w);
        EffectAdvances(before, op, after);
      }
    }
  }

  lemma RwWriteIsOp(id: TxId, ns: TxNamespace, w: ReadWrite) returns (op: Op)
    requires ns.nsId != SNAPSHOT_NS && w in ns.readWrites
    ensures op in OpsOfNamespace(id, ns) && op == RwOp(Loc(ns.nsId, w.key), w.version, w.value)
  {
    var i :| 0 <= i < |ns.readWrites| && ns.readWrites[i] == w;
    op := RwOps(ns.nsId, ns.readWrites)[i];
    assert op in RwOps(ns.nsId, ns.readWrites);
  }

  lemma BlindWriteIsOp(id: TxId, ns: TxNamespace, w: BlindWrite) returns (op: Op)
    requires ns.nsId != SNAPSHOT_NS && w in ns.blindWrites
    ensures op in OpsOfNamespace(id, ns) && op == BlindOp(Loc(ns.nsId, w.key), w.value)
  {
    var i :| 0 <= i < |ns.blindWrites| && ns.blindWrites[i] == w;
    op := BlindOps(ns.nsId, ns.blindWrites)[i];
    assert op in BlindOps(ns.nsId, ns.blindWrites);
  }

  lemma OpIsWrite(id: TxId, ns: TxNamespace, op: Op)
    requires op in OpsOfNamespace(id, ns) && !op.ReadOp?
    ensures NsWrites(id, ns, op.loc)
  {
    if ns.nsId != SNAPSHOT_NS {
      var rws, blinds := RwOps(ns.nsId, ns.readWrites), BlindOps(ns.nsId, ns.blindWrites);
      assert op in rws || op in blinds;
      if op in rws {
        var i :| 0 <= i < |rws| && rws[i] == op;
        assert ns.readWrites[i] in ns.readWrites;
      } else {
        var i :| 0 <= i < |blinds| && blinds[i] == op;
        assert ns.blindWrites[i] in ns.blindWrites;
      }
    }
  }

  // ---------------------------------------------------------------------
  // The law of a batch.

  /** The first transaction of the batch with its ID; later ones are repetitions. */
  predicate First(batch: seq<VcTx>, i: int) {
    0 <= i < |batch| && forall j :: 0 <= j < i ==> batch[j].id != batch[i].id
  }

  lemma NewToBatch(front: seq<VcTx>, id: TxId)
    requires forall j :: 0 <= j < |front| ==> front[j].id != id
    ensures id !in ById(front)
  {
  }

  lemma ByIdNext(batch: seq<VcTx>, n: nat)
    requires n < |batch|
    ensures var front, tx := ById(batch[..n]), batch[n];
            ById(batch[..n + 1]) == if tx.id in front then front else front[tx.id := PlanOf(tx)]
  {
    assert batch[..n + 1][..n] == batch[..n];
  }

  predicate Planned(txs: map<TxId, Plan>, id: TxId, p: Plan) {
    id in txs && txs[id] == p
  }

  lemma StaysPlanned(txs: map<TxId, Plan>, id: TxId, p: Plan, other: TxId, q: Plan)
    requires Planned(txs, id, p)
    ensures Planned(if other in txs then txs else txs[other := q], id, p)
  {
  }

  lemma FirstEnters(batch: seq<VcTx>, i: nat)
    requires First(batch, i)
    ensures Planned(ById(batch[..i + 1]), batch[i].id, PlanOf(batch[i]))
  {
    ByIdNext(batch, i);
    NewToBatch(batch[..i], batch[i].id);
  }

  lemma PlannedNext(batch: seq<VcTx>, n: nat, id: TxId, p: Plan)
    requires n < |batch| && Planned(ById(batch[..n]), id, p)
    ensures Planned(ById(batch[..n + 1]), id, p)
  {
    ByIdNext(batch, n);
    StaysPlanned(ById(batch[..n]), id, p, batch[n].id, PlanOf(batch[n]));
  }

  lemma {:induction false} FirstStays(batch: seq<VcTx>, i: nat, n: nat)
    requires First(batch, i) && i < n <= |batch|
    ensures Planned(ById(batch[..n]), batch[i].id, PlanOf(batch[i]))
  {
    if i == n - 1 {
      FirstEnters(batch, i);
    } else {
      FirstStays(batch, i, n - 1);
      PlannedNext(batch, n - 1, batch[i].id, PlanOf(batch[i]));
    }
  }

  lemma FirstIsPlanned(batch: seq<VcTx>, i: nat)
    requires First(batch, i)
    ensures batch[i].id in ById(batch) && ById(batch)[batch[i].id] == PlanOf(batch[i])
  {
    FirstStays(batch, i, |batch|);
    assert batch[..|batch|] == batch;
  }

  lemma {:induction false} FirstBefore(batch: seq<VcTx>, k: nat) returns (i: nat)
    requires k < |batch|
    ensures First(batch, i) && batch[i].id == batch[k].id
  {
    if j :| 0 <= j < k && batch[j].id == batch[k].id {
      i := FirstBefore(batch, j);
    } else {
      i := k;
    }
  }

  lemma PlannedIsFirst(batch: seq<VcTx>, id: TxId) returns (i: nat)
    requires id in ById(batch)
    ensures First(batch, i) && batch[i].id == id
  {
    var tx :| tx in batch && ById(batch)[id] == PlanOf(tx);
    var k :| 0 <= k < |batch| && batch[k] == tx;
    assert PlanOf(tx).id == id;
    i := FirstBefore(batch, k);
  }

  /** A new transaction without an earlier verdict whose reads are all current. */
  predicate Commits(before: Db, tx: VcTx) {
    tx.id !in before.txStatus && tx.prelim.None? && Current(before.states, tx)
  }

  /** The status a transaction gets. */
  predicate HasStatus(before: Db, tx: VcTx, status: Status) {
    && (tx.id in before.txStatus && before.txStatus[tx.id].height == tx.height ==>
          status == before.txStatus[tx.id].status)
    && (tx.id in before.txStatus && before.txStatus[tx.id].height != tx.height ==> status == RejectedDuplicateTxId)
    && (tx.id !in before.txStatus && tx.prelim.Some? ==> status == tx.prelim.value)
    && (tx.id !in before.txStatus && tx.prelim.None? ==>
          if Current(before.states, tx) then status == Committed else status == AbortedMvccConflict)
  }

  /** The row it leaves: none for a duplicate, an old one untouched. */
  predicate HasRow(before: Db, tx: VcTx, after: map<TxId, Row>) {
    && (tx.id in before.txStatus ==> tx.id in after && after[tx.id] == before.txStatus[tx.id])
    && (tx.id !in before.txStatus && tx.prelim == Some(RejectedDuplicateTxId) ==> tx.id !in after)
    && (tx.id !in before.txStatus && tx.prelim != Some(RejectedDuplicateTxId) ==>
          tx.id in after && after[tx.id].height == tx.height && HasStatus(before, tx, after[tx.id].status))
  }

  /** Each transaction is decided by the tables before the batch; exactly those that commit write, each of
      their writes advances its key by one version, and nothing else changes. */
  ghost predicate TablesFollow(batch: seq<VcTx>, before: Db, after: Db) {
    && (forall i, ns :: First(batch, i) && Commits(before, batch[i]) && ns in batch[i].namespaces ==>
          NsWrote(before.states, after.states, batch[i].id, ns))
    && (forall loc :: SameAt(before.states, after.states, loc) ||
          exists i :: First(batch, i) && Commits(before, batch[i]) && TxWritesTo(batch[i], loc))
    && (forall i :: First(batch, i) ==> HasRow(before, batch[i], after.txStatus))
    && (forall id :: (exists i :: First(batch, i) && batch[i].id == id) ||
          (if id in before.txStatus then id in after.txStatus && after.txStatus[id] == before.txStatus[id]
           else id !in after.txStatus))
  }

  lemma CommitsIsWins(before: Db, tx: VcTx)
    ensures Commits(before, tx) <==> Wins(before, PlanOf(tx))
  {
    FreshIsCurrent(before.states, tx.id, tx.namespaces);
  }

  lemma ReportedHasStatus(before: Db, tx: VcTx)
    ensures HasStatus(before, tx, Reported(before, PlanOf(tx)))
  {
    FreshIsCurrent(before.states, tx.id, tx.namespaces);
  }

  lemma CommittedWrote(batch: seq<VcTx>, before: Db, after: Db, i: nat, ns: TxNamespace)
    requires MergedStates(before, ById(batch), after.states)
    requires First(batch, i) && Commits(before, batch[i]) && ns in batch[i].namespaces
    ensures NsWrote(before.states, after.states, batch[i].id, ns)
  {
    var tx, ops := batch[i], OpsOfNamespace(batch[i].id, ns);
    FirstIsPlanned(batch, i);
    CommitsIsWins(before, tx);
    forall op | op in ops ensures op in PlanOf(tx).ops { OpsOfHas(tx.id, tx.namespaces, ns, op); }
    NamespaceWrote(before.states, after.states, tx.id, ns);
  }

  lemma ChangedIsWritten(batch: seq<VcTx>, before: Db, after: Db, loc: Loc)
    requires MergedStates(before, ById(batch), after.states) && !SameAt(before.states, after.states, loc)
    ensures exists i :: First(batch, i) && Commits(before, batch[i]) && TxWritesTo(batch[i], loc)
  {
    var plans := ById(batch);
    assert WrittenBy(before, plans, loc);
    var id :| id in plans && Wins(before, plans[id]) && Writes(plans[id].ops, loc);
    var i := PlannedIsFirst(batch, id);
    FirstIsPlanned(batch, i);
    CommitsIsWins(before, batch[i]);
    var op :| op in plans[id].ops && WritesTo(op, loc);
    var ns := OpsOfFrom(id, batch[i].namespaces, op);
    OpIsWrite(id, ns, op);
  }

  lemma RowFollows(batch: seq<VcTx>, before: Db, after: Db, i: nat)
    requires MergedRows(before, ById(batch), after.txStatus) && First(batch, i)
    ensures HasRow(before, batch[i], after.txStatus)
  {
    FirstIsPlanned(batch, i);
    ReportedHasStatus(before, batch[i]);
  }

  lemma MergedFollows(batch: seq<VcTx>, before: Db, after: Db)
    requires Merged(before, ById(batch), after)
    ensures TablesFollow(batch, before, after)
  {
    forall i, ns | First(batch, i) && Commits(before, batch[i]) && ns in batch[i].namespaces
      ensures NsWrote(before.states, after.states, batch[i].id, ns)
    {
      CommittedWrote(batch, before, after, i, ns);
    }
    forall loc ensures SameAt(before.states, after.states, loc) ||
                       exists i :: First(batch, i) && Commits(before, batch[i]) && TxWritesTo(batch[i], loc)
    {
      if !SameAt(before.states, after.states, loc) { ChangedIsWritten(batch, before, after, loc); }
    }
    forall i | First(batch, i) ensures HasRow(before, batch[i], after.txStatus) { RowFollows(batch, before, after, i); }
    forall id ensures (exists i :: First(batch, i) && batch[i].id == id) ||
                      (if id in before.txStatus then id in after.txStatus && after.txStatus[id] == before.txStatus[id]
                       else id !in after.txStatus)
    {
      if id in ById(batch) { var i := PlannedIsFirst(batch, id); }
    }
  }

  /** Whoever read the old version of a key that was written is stale from then on. */
  lemma OldVersionIsStale(before: States, after: States, loc: Loc, value: Value, version: Option<Version>)
    requires Wrote(before, after, loc, value) && VersionIs(before, loc.ns, loc.key, version)
    ensures !VersionIs(after, loc.ns, loc.key, version)
  {
    assert loc == Loc(loc.ns, loc.key);
  }
}
