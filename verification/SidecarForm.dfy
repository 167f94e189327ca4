/** The form checks of the sidecar, and what they secure for the validator-committer. */
module TxForm {
  import opened Common
  import opened VcTypes
  import opened VcPrepare
  import opened VcService

  const MAX_KEYS_FOR_PAIRWISE_CHECK := 24

  datatype KeyCheck = KeysFine | EmptyKey | DuplicateKey

  function KeyCount(ns: TxNamespace): nat {
    |ns.readsOnly| + |ns.readWrites| + |ns.blindWrites|
  }

  function NsKey(ns: TxNamespace, i: nat): Key
    requires i < KeyCount(ns)
  {
    if i < |ns.readsOnly| then ns.readsOnly[i].key
    else if i - |ns.readsOnly| < |ns.readWrites| then ns.readWrites[i - |ns.readsOnly|].key
    else ns.blindWrites[i - |ns.readsOnly| - |ns.readWrites|].key
  }

  predicate NoEmptyKey(ns: TxNamespace) {
    forall i :: 0 <= i < KeyCount(ns) ==> NsKey(ns, i) != []
  }

  predicate NoDuplicateKey(ns: TxNamespace) {
    forall i, j :: 0 <= i < j < KeyCount(ns) ==> NsKey(ns, i) != NsKey(ns, j)
  }

  function KeysUpTo(ns: TxNamespace, n: nat): set<Key>
    requires n <= KeyCount(ns)
  {
    if n == 0 then {} else KeysUpTo(ns, n - 1) + {NsKey(ns, n - 1)}
  }

  lemma {:induction false} KeysUpToElems(ns: TxNamespace, n: nat, k: Key)
    requires n <= KeyCount(ns)
    ensures k in KeysUpTo(ns, n) <==> exists i :: 0 <= i < n && NsKey(ns, i) == k
  {
    if n > 0 { KeysUpToElems(ns, n - 1, k); }
  }

  /** The set of keys is as large as their number exactly when no key comes twice. */
  lemma {:induction false} SizeTellsDuplicates(ns: TxNamespace, n: nat)
    requires n <= KeyCount(ns)
    ensures |KeysUpTo(ns, n)| <= n
    ensures |KeysUpTo(ns, n)| == n <==> forall i, j :: 0 <= i < j < n ==> NsKey(ns, i) != NsKey(ns, j)
  {
    if n > 0 {
      SizeTellsDuplicates(ns, n - 1);
      KeysUpToElems(ns, n - 1, NsKey(ns, n - 1));
    }
  }

  /** Short namespaces are compared pairwise, long ones through a set, with the same outcome. */
  method CheckKeys(ns: TxNamespace) returns (r: KeyCheck)
    ensures r.EmptyKey? <==> !NoEmptyKey(ns)
    ensures r.KeysFine? <==> NoEmptyKey(ns) && NoDuplicateKey(ns)
  {
    for i := 0 to KeyCount(ns)
      invariant forall k :: 0 <= k < i ==> NsKey(ns, k) != []
    {
      if |NsKey(ns, i)| == 0 { return EmptyKey; }
    }
    if KeyCount(ns) > MAX_KEYS_FOR_PAIRWISE_CHECK {
      var uniqueKeys: set<Key> := {};
      for i := 0 to KeyCount(ns)
        invariant uniqueKeys == KeysUpTo(ns, i)
      {
        uniqueKeys := uniqueKeys + {NsKey(ns, i)};
      }
      SizeTellsDuplicates(ns, KeyCount(ns));
      return if |uniqueKeys| != KeyCount(ns) then DuplicateKey else KeysFine;
    }
    for i := 0 to KeyCount(ns)
      invariant forall a, b :: 0 <= a < i && a < b < KeyCount(ns) ==> NsKey(ns, a) != NsKey(ns, b)
    {
      for j := i + 1 to KeyCount(ns)
        invariant forall b :: i < b < j ==> NsKey(ns, i) != NsKey(ns, b)
      {
        if NsKey(ns, i) == NsKey(ns, j) { return DuplicateKey; }
      }
    }
    return KeysFine;
  }

  // ---------------------------------------------------------------------
  // The form of a transaction.

  predicate IsStandaloneSystem(nsId: Ns) {
    nsId == SNAPSHOT_NS || nsId == CHECKPOINT_NS
  }

  /** The shape checks of one namespace; which IDs, policies, checkpoint keys and values are valid is left
      to otherChecks. */
  predicate NamespaceOk(ns: TxNamespace, otherChecks: TxNamespace -> bool) {
    && ns.nsId != CONFIG_NS && otherChecks(ns)
    && (ns.readWrites != [] || ns.blindWrites != [] || IsStandaloneSystem(ns.nsId))
    && NoEmptyKey(ns) && NoDuplicateKey(ns)
    && (ns.nsId == META_NS ==> ns.blindWrites == [])
    && (ns.nsId == SNAPSHOT_NS ==> KeyCount(ns) == 0)
    && (ns.nsId == CHECKPOINT_NS ==>
          ns.readsOnly == [] && ns.blindWrites == [] && |ns.readWrites| == 1 && ns.readWrites[0].version.None?)
  }

  predicate DistinctNs(nss: seq<TxNamespace>) {
    forall i, j :: 0 <= i < j < |nss| ==> nss[i].nsId != nss[j].nsId
  }

  ghost predicate FormOk(nss: seq<TxNamespace>, otherChecks: TxNamespace -> bool) {
    && nss != [] && DistinctNs(nss)
    && (forall i :: 0 <= i < |nss| ==> NamespaceOk(nss[i], otherChecks))
    && (forall i :: 0 <= i < |nss| && IsStandaloneSystem(nss[i].nsId) ==> |nss| == 1)
  }

  /** A transaction with a snapshot or checkpoint namespace has no other. A snapshot namespace is empty, a
      checkpoint namespace is one insert, any other writes something. */
  lemma FormByNamespace(nss: seq<TxNamespace>, otherChecks: TxNamespace -> bool, i: nat)
    requires FormOk(nss, otherChecks) && i < |nss|
    ensures nss[i].nsId == SNAPSHOT_NS ==>
              |nss| == 1 && nss[i].readsOnly == [] && nss[i].readWrites == [] && nss[i].blindWrites == []
    ensures nss[i].nsId == CHECKPOINT_NS ==>
              && |nss| == 1 && nss[i].readsOnly == [] && nss[i].blindWrites == []
              && |nss[i].readWrites| == 1 && nss[i].readWrites[0].version.None?
    ensures nss[i].nsId != SNAPSHOT_NS && nss[i].nsId != CHECKPOINT_NS ==>
              nss[i].readWrites != [] || nss[i].blindWrites != []
    ensures nss[i].nsId != CONFIG_NS && (nss[i].nsId == META_NS ==> nss[i].blindWrites == [])
  {
    assert NamespaceOk(nss[i], otherChecks);
  }

  /** And each of the system transactions is accepted, when its other checks pass. */
  lemma SystemFormsPass(ns: TxNamespace, otherChecks: TxNamespace -> bool)
    requires otherChecks(ns)
    ensures ns.nsId == SNAPSHOT_NS && ns.readsOnly == [] && ns.readWrites == [] && ns.blindWrites == [] ==>
              FormOk([ns], otherChecks)
    ensures ns.nsId == CHECKPOINT_NS && ns.readsOnly == [] && ns.blindWrites == [] && |ns.readWrites| == 1 &&
            ns.readWrites[0].version.None? && ns.readWrites[0].key != [] ==>
              FormOk([ns], otherChecks)
  {
    assert forall i :: 0 <= i < |[ns]| ==> [ns][i] == ns;
  }

  method CheckNamespace(ns: TxNamespace, otherChecks: TxNamespace -> bool) returns (ok: bool)
    ensures ok <==> NamespaceOk(ns, otherChecks)
  {
    if ns.nsId == CONFIG_NS || !otherChecks(ns) { return false; }
    if ns.readWrites == [] && ns.blindWrites == [] && !IsStandaloneSystem(ns.nsId) { return false; }
    var keys := CheckKeys(ns);
    if !keys.KeysFine? { return false; }
    if ns.nsId == META_NS { return |ns.blindWrites| == 0; }
    if ns.nsId == SNAPSHOT_NS { return |ns.readsOnly| == 0 && |ns.readWrites| == 0 && |ns.blindWrites| == 0; }
    if ns.nsId == CHECKPOINT_NS {
      if |ns.readsOnly| > 0 || |ns.blindWrites| > 0 || |ns.readWrites| != 1 { return false; }
      return ns.readWrites[0].version.None?;
    }
    ok := true;
  }

  method VerifyTxForm(nss: seq<TxNamespace>, otherChecks: TxNamespace -> bool) returns (ok: bool)
    ensures ok <==> FormOk(nss, otherChecks)
  {
    if |nss| == 0 { return false; }
    for i := 0 to |nss|
      invariant forall k :: 0 <= k < i && IsStandaloneSystem(nss[k].nsId) ==> |nss| == 1
    {
      if IsStandaloneSystem(nss[i].nsId) && |nss| != 1 { return false; }
    }
    var nsIDs: set<Ns> := {};
    for i := 0 to |nss|
      invariant forall id :: id in nsIDs <==> exists k :: 0 <= k < i && nss[k].nsId == id
      invariant forall a, b :: 0 <= a < b < i ==> nss[a].nsId != nss[b].nsId
      invariant forall k :: 0 <= k < i ==> NamespaceOk(nss[k], otherChecks)
    {
      var fine := CheckNamespace(nss[i], otherChecks);
      if !fine || nss[i].nsId in nsIDs { return false; }
      nsIDs := nsIDs + {nss[i].nsId};
    }
    ok := true;
  }

  // ---------------------------------------------------------------------
  // What the form secures.

  lemma NsOpsKeys(ns: TxNamespace)
    ensures |NsOps(ns)| == KeyCount(ns)
    ensures forall i :: 0 <= i < KeyCount(ns) ==> NsOps(ns)[i].loc == Loc(ns.nsId, NsKey(ns, i))
  {
  }

  /** Not a versioned read: an operation the transaction names itself, or a read of an absent key. */
  predicate Named(op: Op) {
    !(op.ReadOp? && op.version.Some?)
  }

  lemma NamedElsewhere(id: TxId, ns: TxNamespace, op: Op)
    requires op in OpsOfNamespace(id, ns) && Named(op)
    ensures op.loc.ns == ns.nsId
  {
    if ns.nsId != SNAPSHOT_NS {
      var i :| 0 <= i < |OpsOfNamespace(id, ns)| && OpsOfNamespace(id, ns)[i] == op;
      NsOpsKeys(ns);
      if i < |NsOps(ns)| { assert op == NsOps(ns)[i]; }
    }
  }

  lemma {:induction false} NamedIn(id: TxId, nss: seq<TxNamespace>, op: Op)
    requires op in OpsOf(id, nss) && Named(op)
    ensures exists k :: 0 <= k < |nss| && nss[k].nsId == op.loc.ns
  {
    var n := |nss| - 1;
    if op in OpsOf(id, nss[..n]) {
      NamedIn(id, nss[..n], op);
      var k :| 0 <= k < |nss[..n]| && nss[..n][k].nsId == op.loc.ns;
      assert nss[k].nsId == op.loc.ns;
    } else {
      NamedElsewhere(id, nss[n], op);
    }
  }

  lemma NamespaceOneTouch(id: TxId, ns: TxNamespace)
    requires NoDuplicateKey(ns)
    ensures OneTouch(OpsOfNamespace(id, ns))
  {
    NsOpsKeys(ns);
    if ns.nsId != SNAPSHOT_NS {
      var ops := OpsOfNamespace(id, ns);
      assert forall i, j :: 0 <= i < j < |NsOps(ns)| ==> ops[i].loc != ops[j].loc;
      assert forall j :: |NsOps(ns)| <= j < |ops| ==> !Named(ops[j]);
    }
  }

  lemma NamedApart(id: TxId, nss: seq<TxNamespace>, op: Op, op2: Op)
    requires nss != [] && DistinctNs(nss) && op in OpsOf(id, nss[..|nss| - 1])
    requires op2 in OpsOfNamespace(id, nss[|nss| - 1])
    ensures Named(op) && Named(op2) ==> op.loc != op2.loc
  {
    if Named(op) && Named(op2) {
      NamedIn(id, nss[..|nss| - 1], op);
      NamedElsewhere(id, nss[|nss| - 1], op2);
    }
  }

  /** A well-formed transaction touches each key once, whatever version reads its namespaces add. */
  lemma {:induction false} FormGivesOneTouch(id: TxId, nss: seq<TxNamespace>)
    requires DistinctNs(nss) && forall i :: 0 <= i < |nss| ==> NoDuplicateKey(nss[i])
    ensures OneTouch(OpsOf(id, nss))
  {
    if nss != [] {
      var n := |nss| - 1;
      var front, last := OpsOf(id, nss[..n]), OpsOfNamespace(id, nss[n]);
      FormGivesOneTouch(id, nss[..n]);
      NamespaceOneTouch(id, nss[n]);
      forall op, op2 | op in front && op2 in last ensures Named(op) && Named(op2) ==> op.loc != op2.loc {
        NamedApart(id, nss, op, op2);
      }
      OneTouchConcat(front, last);
    }
  }

  lemma OneTouchConcat(a: seq<Op>, b: seq<Op>)
    requires OneTouch(a) && OneTouch(b)
    requires forall op, op2 :: op in a && op2 in b ==> (Named(op) && Named(op2) ==> op.loc != op2.loc)
    ensures OneTouch(a + b)
  {
    var ops := a + b;
    forall i, j | 0 <= i < j < |ops| && ops[i].loc == ops[j].loc ensures !Named(ops[i]) || !Named(ops[j]) {
      if i < |a| <= j { assert ops[i] in a && ops[j] in b; }
    }
  }

  predicate HasWrite(ops: seq<Op>) {
    exists op :: op in ops && !op.ReadOp?
  }

  lemma FormGivesWriter(id: TxId, nss: seq<TxNamespace>, otherChecks: TxNamespace -> bool)
    requires FormOk(nss, otherChecks)
    ensures HasWrite(OpsOf(id, nss))
  {
    var n := |nss| - 1;
    var ns, last := nss[n], OpsOfNamespace(id, nss[n]);
    assert NamespaceOk(ns, otherChecks);
    NsOpsKeys(ns);
    if ns.nsId == SNAPSHOT_NS {
      assert last[0] in OpsOf(id, nss);
    } else {
      var op := last[|ns.readsOnly|];
      assert op == NsOps(ns)[|ns.readsOnly|] && !op.ReadOp?;
      assert op in OpsOf(id, nss);
    }
  }

  lemma CheckpointTxOps(id: TxId, nss: seq<TxNamespace>)
    requires |nss| == 1 && nss[0].nsId == CHECKPOINT_NS && nss[0].readsOnly == [] && nss[0].blindWrites == []
    requires |nss[0].readWrites| == 1 && nss[0].readWrites[0].version.None?
    ensures OpsOf(id, nss) == [RwOp(Loc(CHECKPOINT_NS, nss[0].readWrites[0].key), None, nss[0].readWrites[0].value)]
  {
    assert nss[..0] == [] && OpsOf(id, nss) == OpsOf(id, []) + OpsOfNamespace(id, nss[0]);
  }

  lemma {:induction false} CheckpointOpIsNamed(id: TxId, nss: seq<TxNamespace>, op: Op)
    requires op in OpsOf(id, nss) && op.loc.ns == CHECKPOINT_NS
    ensures exists k :: 0 <= k < |nss| && nss[k].nsId == CHECKPOINT_NS
  {
    var n := |nss| - 1;
    if op in OpsOf(id, nss[..n]) {
      CheckpointOpIsNamed(id, nss[..n], op);
      var k :| 0 <= k < |nss[..n]| && nss[..n][k].nsId == CHECKPOINT_NS;
      assert nss[k].nsId == CHECKPOINT_NS;
    } else {
      var ops := OpsOfNamespace(id, nss[n]);
      var i :| 0 <= i < |ops| && ops[i] == op;
      NsOpsKeys(nss[n]);
      if nss[n].nsId != SNAPSHOT_NS && i < |NsOps(nss[n])| { assert op == NsOps(nss[n])[i]; }
    }
  }

  predicate IsConfigTx(nss: seq<TxNamespace>) {
    && |nss| == 1 && nss[0].nsId == CONFIG_NS
    && nss[0].readsOnly == [] && nss[0].readWrites == [] && |nss[0].blindWrites| == 1
  }

  /** What the sidecar lets through or builds itself: a well-formed transaction, a config transaction, or a
      rejected one without content. */
  ghost predicate FromSidecar(tx: VcTx, otherChecks: TxNamespace -> bool) {
    || FormOk(tx.namespaces, otherChecks)
    || IsConfigTx(tx.namespaces)
    || (tx.prelim.Some? && tx.namespaces == [])
  }

  /** A checkpoint transaction does nothing but insert into the checkpoint namespace. */
  predicate CheckpointAlone(ops: seq<Op>) {
    forall op, op2 :: op in ops && op.loc.ns == CHECKPOINT_NS && op2 in ops ==>
      op2.loc.ns == CHECKPOINT_NS && IsKind(op2, Inserted)
  }

  lemma FormGivesAlone(id: TxId, nss: seq<TxNamespace>, otherChecks: TxNamespace -> bool)
    requires FormOk(nss, otherChecks)
    ensures CheckpointAlone(OpsOf(id, nss))
  {
    if k :| 0 <= k < |nss| && nss[k].nsId == CHECKPOINT_NS {
      assert NamespaceOk(nss[k], otherChecks) && |nss| == 1;
      CheckpointTxOps(id, nss);
    } else {
      forall op | op in OpsOf(id, nss) ensures op.loc.ns != CHECKPOINT_NS {
        if op.loc.ns == CHECKPOINT_NS { CheckpointOpIsNamed(id, nss, op); }
      }
    }
  }

  lemma FromSidecarOne(tx: VcTx, otherChecks: TxNamespace -> bool)
    requires FromSidecar(tx, otherChecks)
    ensures OneTouch(PlanOf(tx).ops) && Writer(PlanOf(tx)) && CheckpointAlone(PlanOf(tx).ops)
  {
    var nss := tx.namespaces;
    if FormOk(nss, otherChecks) {
      FormGivesOneTouch(tx.id, nss);
      FormGivesWriter(tx.id, nss, otherChecks);
      FormGivesAlone(tx.id, nss, otherChecks);
    } else if nss != [] {
      ConfigTxOps(tx.id, nss);
      assert OpsOf(tx.id, nss)[0] in OpsOf(tx.id, nss);
    }
  }

  lemma ConfigTxOps(id: TxId, nss: seq<TxNamespace>)
    requires IsConfigTx(nss)
    ensures OpsOf(id, nss) == [BlindOp(Loc(CONFIG_NS, nss[0].blindWrites[0].key), nss[0].blindWrites[0].value)]
  {
    NsOpsKeys(nss[0]);
    assert nss[..0] == [] && OpsOf(id, nss) == OpsOf(id, []) + OpsOfNamespace(id, nss[0]);
  }

  /** What the pipeline asks of a batch's transactions one by one is what the sidecar checked. */
  lemma SidecarSecuresForm(batch: seq<VcTx>, otherChecks: TxNamespace -> bool)
    requires forall tx :: tx in batch ==> FromSidecar(tx, otherChecks)
    ensures AllOneTouch(ById(batch)) && CheckpointsAlone(ById(batch))
    ensures forall id :: id in ById(batch) ==> Writer(ById(batch)[id])
  {
    var plans := ById(batch);
    forall id | id in plans ensures OneTouch(plans[id].ops) && Writer(plans[id]) && CheckpointAlone(plans[id].ops) {
      var tx :| tx in batch && plans[id] == PlanOf(tx);
      FromSidecarOne(tx, otherChecks);
    }
    AloneInBatch(plans);
  }

  lemma AloneInBatch(plans: map<TxId, Plan>)
    requires forall id :: id in plans ==> CheckpointAlone(plans[id].ops)
    ensures CheckpointsAlone(plans)
  {
    forall id, op | id in plans && op in plans[id].ops && op.loc.ns == CHECKPOINT_NS
      ensures forall op2 :: op2 in plans[id].ops ==> op2.loc.ns == CHECKPOINT_NS && IsKind(op2, Inserted)
    {
      assert CheckpointAlone(plans[id].ops);
    }
  }
}
