/** service/vc/preparer.go: a batch is split into reads to check in bulk, versioned writes, blind
    writes and inserts. */
module VcPrepare {
  import opened Common
  import opened VcTypes

  // ---------------------------------------------------------------------
  // Data.

  /** A read as a map key: the version is an int64, with -1 for "no version". */
  datatype CmpRead = CmpRead(nsId: Ns, key: Key, version: int)

  function ToInt64(v: Version): int {
    if v < TWO_TO_THE_63 then v else v - TWO_TO_THE_64
  }

  function NewCmpRead(ns: Ns, key: Key, version: Option<Version>): CmpRead {
    CmpRead(ns, key, if version.Some? then ToInt64(version.value) else -1)
  }

  /** Two reads share a map key only when they are the same read, except that the largest uint64
      version is taken for "no version". */
  lemma CmpReadDistinguishes(ns: Ns, key: Key, v: Option<Version>, w: Option<Version>)
    requires v != w
    ensures NewCmpRead(ns, key, v) == NewCmpRead(ns, key, w) <==>
            (v == None && w == Some(TWO_TO_THE_64 - 1)) || (w == None && v == Some(TWO_TO_THE_64 - 1))
  {
  }

  datatype KeyWrite = KeyWrite(key: Key, value: Value, version: Version)

  type NsWrites = map<Ns, seq<KeyWrite>>
  type TxWrites = map<TxId, NsWrites>

  function At(tw: TxWrites, id: TxId, ns: Ns): seq<KeyWrite> {
    if id in tw && ns in tw[id] then tw[id][ns] else []
  }

  function Touch(tw: TxWrites, id: TxId, ns: Ns): TxWrites {
    var nw := if id in tw then tw[id] else map[];
    tw[id := if ns in nw then nw else nw[ns := []]]
  }

  function Append(tw: TxWrites, id: TxId, ns: Ns, w: KeyWrite): TxWrites {
    var nw := if id in tw then tw[id] else map[];
    tw[id := nw[ns := (if ns in nw then nw[ns] else []) + [w]]]
  }

  /** No entry is empty, at either level. */
  predicate Compact(tw: TxWrites) {
    forall id :: id in tw ==> tw[id] != map[] && forall ns :: ns in tw[id] ==> tw[id][ns] != []
  }

  datatype CheckpointTx = CheckpointTx(txId: TxId, height: Height, snapshotBlockNum: nat, value: Value)

  /** The fields of preparedTransactions. */
  datatype View = View(
    nsToReads: map<Ns, seq<Read>>,
    readToTxIDs: map<CmpRead, seq<TxId>>,
    nonBlind: TxWrites, blind: TxWrites, newWrites: TxWrites,
    invalid: map<TxId, Status>,
    heights: map<TxId, Height>)

  // ---------------------------------------------------------------------
  // What a prepared batch says about its transactions.

  datatype Kind = Versioned | Inserted | Blind

  predicate IsKind(op: Op, kind: Kind) {
    match kind
    case Versioned => op.RwOp? && op.version.Some?
    case Inserted => op.RwOp? && op.version.None?
    case Blind => op.BlindOp?
  }

  function WriteOf(op: Op): KeyWrite
    requires !op.ReadOp?
  {
    KeyWrite(op.loc.key, op.value, if op.RwOp? && op.version.Some? then NextVersion(op.version.value) else 0)
  }

  function WritesOf(kind: Kind, ops: seq<Op>, ns: Ns): seq<KeyWrite> {
    if ops == [] then [] else
      var op := ops[|ops| - 1];
      WritesOf(kind, ops[..|ops| - 1], ns) + (if IsKind(op, kind) && op.loc.ns == ns then [WriteOf(op)] else [])
  }

  function OpsAt(plans: map<TxId, Plan>, id: TxId): seq<Op> {
    if id in plans && plans[id].prelim.None? then plans[id].ops else []
  }

  ghost predicate HoldsWrites(tw: TxWrites, plans: map<TxId, Plan>, kind: Kind) {
    forall id, ns :: At(tw, id, ns) == WritesOf(kind, OpsAt(plans, id), ns)
  }

  function CmpOf(op: Op): CmpRead
    requires !op.BlindOp?
  {
    NewCmpRead(op.loc.ns, op.loc.key, op.version)
  }

  predicate Claims(ops: seq<Op>, cr: CmpRead) {
    exists op :: op in ops && !op.BlindOp? && CmpOf(op) == cr
  }

  predicate InsertClaims(ops: seq<Op>, cr: CmpRead) {
    exists op :: op in ops && IsKind(op, Inserted) && CmpOf(op) == cr
  }

  predicate Registered(rtt: map<CmpRead, seq<TxId>>, cr: CmpRead, id: TxId) {
    cr in rtt && id in rtt[cr]
  }

  /** readToTxIDs names exactly the transactions that made each read. */
  ghost predicate HoldsClaims(rtt: map<CmpRead, seq<TxId>>, plans: map<TxId, Plan>) {
    && (forall cr :: cr in rtt ==> rtt[cr] != [])
    && (forall cr, id :: Registered(rtt, cr, id) <==> Claims(OpsAt(plans, id), cr))
  }

  predicate Listed(nsToReads: map<Ns, seq<Read>>, cr: CmpRead) {
    cr.nsId in nsToReads && exists r :: r in nsToReads[cr.nsId] && NewCmpRead(cr.nsId, r.key, r.version) == cr
  }

  ghost predicate SomeInsertClaims(plans: map<TxId, Plan>, cr: CmpRead) {
    exists id :: InsertClaims(OpsAt(plans, id), cr)
  }

  predicate Makes(ops: seq<Op>, ns: Ns, r: Read) {
    exists op :: op in ops && !op.BlindOp? && op.loc == Loc(ns, r.key) && op.version == r.version
  }

  ghost predicate SomeMakes(plans: map<TxId, Plan>, ns: Ns, r: Read) {
    exists id :: Makes(OpsAt(plans, id), ns, r)
  }

  /** A listed read was made by somebody, and every read that was made is listed, unless an insert
      of the same key made it first. */
  ghost predicate HoldsReads(nsToReads: map<Ns, seq<Read>>, rtt: map<CmpRead, seq<TxId>>, plans: map<TxId, Plan>) {
    && (forall ns, r :: ns in nsToReads && r in nsToReads[ns] ==> SomeMakes(plans, ns, r))
    && (forall cr :: cr in rtt ==> Listed(nsToReads, cr) || SomeInsertClaims(plans, cr))
  }

  ghost predicate HoldsStatus(v: View, plans: map<TxId, Plan>) {
    && v.heights == (map id | id in plans :: plans[id].height)
    && v.invalid == (map id | id in plans && plans[id].prelim.Some? :: plans[id].prelim.value)
  }

  ghost predicate Reflects(v: View, plans: map<TxId, Plan>) {
    && HoldsWrites(v.nonBlind, plans, Versioned)
    && HoldsWrites(v.blind, plans, Blind)
    && HoldsWrites(v.newWrites, plans, Inserted)
    && HoldsClaims(v.readToTxIDs, plans)
    && HoldsReads(v.nsToReads, v.readToTxIDs, plans)
    && HoldsStatus(v, plans)
  }

  ghost predicate PreparedFrom(v: View, plans: map<TxId, Plan>) {
    && Reflects(v, plans)
    && Compact(v.nonBlind) && Compact(v.blind) && Compact(v.newWrites)
  }

  function Extend(plans: map<TxId, Plan>, id: TxId, ops: seq<Op>): map<TxId, Plan>
    requires id in plans
  {
    plans[id := plans[id].(ops := plans[id].ops + ops)]
  }

  // ---------------------------------------------------------------------
  // One operation at a time.

  function Register(rtt: map<CmpRead, seq<TxId>>, cr: CmpRead, id: TxId): map<CmpRead, seq<TxId>> {
    rtt[cr := (if cr in rtt then rtt[cr] else []) + [id]]
  }

  function AddRead(m: map<Ns, seq<Read>>, ns: Ns, r: Read): map<Ns, seq<Read>> {
    m[ns := (if ns in m then m[ns] else []) + [r]]
  }

  lemma ExtendOps(plans: map<TxId, Plan>, id: TxId, ops: seq<Op>)
    requires id in plans && plans[id].prelim.None?
    ensures OpsAt(Extend(plans, id, ops), id) == OpsAt(plans, id) + ops
    ensures forall id2 :: id2 != id ==> OpsAt(Extend(plans, id, ops), id2) == OpsAt(plans, id2)
  {
  }

  lemma AppendHolds(tw: TxWrites, plans: map<TxId, Plan>, kind: Kind, id: TxId, op: Op)
    requires HoldsWrites(tw, plans, kind) && id in plans && plans[id].prelim.None? && IsKind(op, kind)
    ensures HoldsWrites(Append(tw, id, op.loc.ns, WriteOf(op)), Extend(plans, id, [op]), kind)
  {
    ExtendOps(plans, id, [op]);
    var now := Extend(plans, id, [op]);
    var tw' := Append(tw, id, op.loc.ns, WriteOf(op));
    forall i, ns ensures At(tw', i, ns) == WritesOf(kind, OpsAt(now, i), ns) {
      if i == id {
        assert OpsAt(now, id)[..|OpsAt(now, id)| - 1] == OpsAt(plans, id);
        assert At(tw, id, ns) == WritesOf(kind, OpsAt(plans, id), ns);
      } else {
        assert At(tw, i, ns) == WritesOf(kind, OpsAt(plans, i), ns);
        assert At(tw', i, ns) == At(tw, i, ns);
      }
    }
  }

  lemma OtherKindHolds(tw: TxWrites, plans: map<TxId, Plan>, kind: Kind, id: TxId, op: Op)
    requires HoldsWrites(tw, plans, kind) && id in plans && plans[id].prelim.None? && !IsKind(op, kind)
    ensures HoldsWrites(tw, Extend(plans, id, [op]), kind)
  {
    ExtendOps(plans, id, [op]);
    var now := Extend(plans, id, [op]);
    forall i, ns ensures At(tw, i, ns) == WritesOf(kind, OpsAt(now, i), ns) {
      assert At(tw, i, ns) == WritesOf(kind, OpsAt(plans, i), ns);
      if i == id {
        assert OpsAt(now, id)[..|OpsAt(now, id)| - 1] == OpsAt(plans, id);
      }
    }
  }

  lemma RegisterHolds(rtt: map<CmpRead, seq<TxId>>, plans: map<TxId, Plan>, id: TxId, op: Op)
    requires HoldsClaims(rtt, plans) && id in plans && plans[id].prelim.None? && !op.BlindOp?
    ensures HoldsClaims(Register(rtt, CmpOf(op), id), Extend(plans, id, [op]))
  {
    ExtendOps(plans, id, [op]);
    var now, rtt' := Extend(plans, id, [op]), Register(rtt, CmpOf(op), id);
    forall cr, i ensures Registered(rtt', cr, i) <==> Claims(OpsAt(now, i), cr) {
      assert Registered(rtt, cr, i) <==> Claims(OpsAt(plans, i), cr);
      if i == id {
        assert OpsAt(now, id) == OpsAt(plans, id) + [op];
        ClaimsSnoc(OpsAt(plans, id), op, cr);
      }
    }
  }

  lemma ClaimsSnoc(ops: seq<Op>, op: Op, cr: CmpRead)
    ensures Claims(ops + [op], cr) <==> Claims(ops, cr) || (!op.BlindOp? && CmpOf(op) == cr)
    ensures InsertClaims(ops + [op], cr) <==> InsertClaims(ops, cr) || (IsKind(op, Inserted) && CmpOf(op) == cr)
  {
    assert op in ops + [op];
    if Claims(ops, cr) {
      var o :| o in ops && !o.BlindOp? && CmpOf(o) == cr;
      assert o in ops + [op];
    }
    if InsertClaims(ops, cr) {
      var o :| o in ops && IsKind(o, Inserted) && CmpOf(o) == cr;
      assert o in ops + [op];
    }
  }

  lemma SomeInsertGrows(plans: map<TxId, Plan>, id: TxId, op: Op, cr: CmpRead)
    requires id in plans && plans[id].prelim.None?
    ensures SomeInsertClaims(plans, cr) ==> SomeInsertClaims(Extend(plans, id, [op]), cr)
    ensures IsKind(op, Inserted) && CmpOf(op) == cr ==> SomeInsertClaims(Extend(plans, id, [op]), cr)
  {
    ExtendOps(plans, id, [op]);
    var now := Extend(plans, id, [op]);
    ClaimsSnoc(OpsAt(plans, id), op, cr);
    if SomeInsertClaims(plans, cr) {
      var i :| InsertClaims(OpsAt(plans, i), cr);
      assert InsertClaims(OpsAt(now, i), cr);
    }
    if IsKind(op, Inserted) && CmpOf(op) == cr {
      assert InsertClaims(OpsAt(now, id), cr);
    }
  }

  lemma SomeMakesGrows(plans: map<TxId, Plan>, id: TxId, op: Op, ns: Ns, r: Read)
    requires id in plans && plans[id].prelim.None?
    ensures SomeMakes(plans, ns, r) ==> SomeMakes(Extend(plans, id, [op]), ns, r)
    ensures !op.BlindOp? && op.loc == Loc(ns, r.key) && op.version == r.version ==>
              SomeMakes(Extend(plans, id, [op]), ns, r)
  {
    ExtendOps(plans, id, [op]);
    var now := Extend(plans, id, [op]);
    assert op in OpsAt(now, id);
    if SomeMakes(plans, ns, r) {
      var i :| Makes(OpsAt(plans, i), ns, r);
      var o :| o in OpsAt(plans, i) && !o.BlindOp? && o.loc == Loc(ns, r.key) && o.version == r.version;
      assert o in OpsAt(now, i);
      assert Makes(OpsAt(now, i), ns, r);
    }
    if !op.BlindOp? && op.loc == Loc(ns, r.key) && op.version == r.version {
      assert Makes(OpsAt(now, id), ns, r);
    }
  }

  /** A read that goes to the bulk list, unless its key is there already. */
  lemma BulkReadHolds(m: map<Ns, seq<Read>>, rtt: map<CmpRead, seq<TxId>>, plans: map<TxId, Plan>, id: TxId, op: Op)
    requires HoldsReads(m, rtt, plans) && id in plans && plans[id].prelim.None? && !op.BlindOp?
    ensures HoldsReads(
              if CmpOf(op) in rtt then m else AddRead(m, op.loc.ns, Read(op.loc.key, op.version)),
              Register(rtt, CmpOf(op), id), Extend(plans, id, [op]))
  {
    var cr := CmpOf(op);
    var m' := if cr in rtt then m else AddRead(m, op.loc.ns, Read(op.loc.key, op.version));
    var rtt', now := Register(rtt, cr, id), Extend(plans, id, [op]);
    forall ns, r | ns in m' && r in m'[ns] ensures SomeMakes(now, ns, r) {
      SomeMakesGrows(plans, id, op, ns, r);
    }
    forall c | c in rtt' ensures Listed(m', c) || SomeInsertClaims(now, c) {
      SomeInsertGrows(plans, id, op, c);
      if c in rtt {
        if Listed(m, c) {
          var r :| r in m[c.nsId] && NewCmpRead(c.nsId, r.key, r.version) == c;
          assert r in m'[c.nsId];
        }
      } else {
        assert c == cr && Read(op.loc.key, op.version) in m'[cr.nsId];
      }
    }
  }

  lemma InsertReadHolds(m: map<Ns, seq<Read>>, rtt: map<CmpRead, seq<TxId>>, plans: map<TxId, Plan>, id: TxId, op: Op)
    requires HoldsReads(m, rtt, plans) && id in plans && plans[id].prelim.None? && IsKind(op, Inserted)
    ensures HoldsReads(m, Register(rtt, CmpOf(op), id), Extend(plans, id, [op]))
  {
    var rtt', now := Register(rtt, CmpOf(op), id), Extend(plans, id, [op]);
    forall ns, r | ns in m && r in m[ns] ensures SomeMakes(now, ns, r) {
      SomeMakesGrows(plans, id, op, ns, r);
    }
    forall c | c in rtt' ensures Listed(m, c) || SomeInsertClaims(now, c) {
      SomeInsertGrows(plans, id, op, c);
    }
  }

  lemma BlindHoldsReads(m: map<Ns, seq<Read>>, rtt: map<CmpRead, seq<TxId>>, plans: map<TxId, Plan>, id: TxId, op: Op)
    requires HoldsReads(m, rtt, plans) && HoldsClaims(rtt, plans)
    requires id in plans && plans[id].prelim.None? && op.BlindOp?
    ensures HoldsReads(m, rtt, Extend(plans, id, [op])) && HoldsClaims(rtt, Extend(plans, id, [op]))
  {
    var now := Extend(plans, id, [op]);
    ExtendOps(plans, id, [op]);
    forall ns, r | ns in m && r in m[ns] ensures SomeMakes(now, ns, r) {
      SomeMakesGrows(plans, id, op, ns, r);
    }
    forall c | c in rtt ensures Listed(m, c) || SomeInsertClaims(now, c) {
      SomeInsertGrows(plans, id, op, c);
    }
    forall cr, i ensures Registered(rtt, cr, i) <==> Claims(OpsAt(now, i), cr) {
      assert Registered(rtt, cr, i) <==> Claims(OpsAt(plans, i), cr);
      ClaimsSnoc(OpsAt(plans, id), op, cr);
    }
  }

  lemma TouchHolds(tw: TxWrites, plans: map<TxId, Plan>, kind: Kind, id: TxId, ns: Ns)
    requires HoldsWrites(tw, plans, kind)
    ensures HoldsWrites(Touch(tw, id, ns), plans, kind)
  {
    forall i, n ensures At(Touch(tw, id, ns), i, n) == WritesOf(kind, OpsAt(plans, i), n) {
      assert At(tw, i, n) == WritesOf(kind, OpsAt(plans, i), n);
    }
  }

  lemma SameHeader(v: View, plans: map<TxId, Plan>, id: TxId, ops: seq<Op>)
    requires HoldsStatus(v, plans) && id in plans
    ensures HoldsStatus(v, Extend(plans, id, ops))
  {
    var now := Extend(plans, id, ops);
    assert now.Keys == plans.Keys;
    assert forall i :: i in plans ==> now[i].height == plans[i].height && now[i].prelim == plans[i].prelim;
  }

  lemma ExtendTwice(plans: map<TxId, Plan>, id: TxId, a: seq<Op>, b: seq<Op>)
    requires id in plans
    ensures Extend(Extend(plans, id, a), id, b) == Extend(plans, id, a + b)
  {
    assert plans[id].ops + a + b == plans[id].ops + (a + b);
  }

  function AfterRw(v: View, id: TxId, op: Op): View
    requires op.RwOp?
  {
    var cr := CmpOf(op);
    var rtt := Register(v.readToTxIDs, cr, id);
    if op.version.Some? then
      v.(readToTxIDs := rtt,
         nsToReads := if cr in v.readToTxIDs then v.nsToReads
                      else AddRead(v.nsToReads, op.loc.ns, Read(op.loc.key, op.version)),
         nonBlind := Append(v.nonBlind, id, op.loc.ns, WriteOf(op)))
    else
      v.(readToTxIDs := rtt, newWrites := Append(v.newWrites, id, op.loc.ns, WriteOf(op)))
  }

  lemma RwStep(v: View, plans: map<TxId, Plan>, id: TxId, op: Op)
    requires Reflects(v, plans) && id in plans && plans[id].prelim.None? && op.RwOp?
    ensures Reflects(AfterRw(v, id, op), Extend(plans, id, [op]))
  {
    RegisterHolds(v.readToTxIDs, plans, id, op);
    OtherKindHolds(v.blind, plans, Blind, id, op);
    SameHeader(v, plans, id, [op]);
    if op.version.Some? {
      BulkReadHolds(v.nsToReads, v.readToTxIDs, plans, id, op);
      AppendHolds(v.nonBlind, plans, Versioned, id, op);
      OtherKindHolds(v.newWrites, plans, Inserted, id, op);
    } else {
      InsertReadHolds(v.nsToReads, v.readToTxIDs, plans, id, op);
      AppendHolds(v.newWrites, plans, Inserted, id, op);
      OtherKindHolds(v.nonBlind, plans, Versioned, id, op);
    }
  }

  lemma OpsSnoc(ns: Ns, rs: seq<Read>, rws: seq<ReadWrite>, ws: seq<BlindWrite>, i: nat)
    ensures i < |rs| ==> ReadOps(ns, rs[..i + 1]) == ReadOps(ns, rs[..i]) + [ReadOp(Loc(ns, rs[i].key), rs[i].version)]
    ensures i < |rws| ==>
              RwOps(ns, rws[..i + 1]) ==
              RwOps(ns, rws[..i]) + [RwOp(Loc(ns, rws[i].key), rws[i].version, rws[i].value)]
    ensures i < |ws| ==> BlindOps(ns, ws[..i + 1]) == BlindOps(ns, ws[..i]) + [BlindOp(Loc(ns, ws[i].key), ws[i].value)]
  {
  }

  lemma SameOpsHold(tw: TxWrites, plans: map<TxId, Plan>, now: map<TxId, Plan>, kind: Kind)
    requires HoldsWrites(tw, plans, kind) && forall id :: OpsAt(now, id) == OpsAt(plans, id)
    ensures HoldsWrites(tw, now, kind)
  {
    forall id, ns ensures At(tw, id, ns) == WritesOf(kind, OpsAt(now, id), ns) {
      assert At(tw, id, ns) == WritesOf(kind, OpsAt(plans, id), ns);
    }
  }

  lemma SameOpsRead(v: View, plans: map<TxId, Plan>, now: map<TxId, Plan>)
    requires HoldsClaims(v.readToTxIDs, plans) && HoldsReads(v.nsToReads, v.readToTxIDs, plans)
    requires forall id :: OpsAt(now, id) == OpsAt(plans, id)
    ensures HoldsClaims(v.readToTxIDs, now) && HoldsReads(v.nsToReads, v.readToTxIDs, now)
  {
    forall cr, id ensures Registered(v.readToTxIDs, cr, id) <==> Claims(OpsAt(now, id), cr) {
      assert Registered(v.readToTxIDs, cr, id) <==> Claims(OpsAt(plans, id), cr);
    }
    forall ns, r | ns in v.nsToReads && r in v.nsToReads[ns] ensures SomeMakes(now, ns, r) {
      var i :| Makes(OpsAt(plans, i), ns, r);
      assert Makes(OpsAt(now, i), ns, r);
    }
    forall cr | cr in v.readToTxIDs ensures Listed(v.nsToReads, cr) || SomeInsertClaims(now, cr) {
      if SomeInsertClaims(plans, cr) {
        var i :| InsertClaims(OpsAt(plans, i), cr);
        assert InsertClaims(OpsAt(now, i), cr);
      }
    }
  }

  lemma ExtendNone(plans: map<TxId, Plan>, id: TxId)
    requires id in plans
    ensures Extend(plans, id, []) == plans
  {
    assert plans[id].ops + [] == plans[id].ops;
  }

  lemma ExtendFromEmpty(plans: map<TxId, Plan>, id: TxId, ops: seq<Op>)
    requires id in plans && plans[id].ops == []
    ensures Extend(plans, id, ops) == plans[id := plans[id].(ops := ops)]
  {
    assert plans[id].ops + ops == ops;
  }

  lemma ExtendNamespace(plans: map<TxId, Plan>, id: TxId, namespaces: seq<TxNamespace>, j: nat)
    requires id in plans && j < |namespaces|
    ensures Extend(Extend(plans, id, OpsOf(id, namespaces[..j])), id, OpsOfNamespace(id, namespaces[j]))
         == Extend(plans, id, OpsOf(id, namespaces[..j + 1]))
  {
    ExtendTwice(plans, id, OpsOf(id, namespaces[..j]), OpsOfNamespace(id, namespaces[j]));
    assert namespaces[..j + 1][..j] == namespaces[..j];
  }

  lemma NewPlanHolds(v: View, plans: map<TxId, Plan>, p: Plan, v': View)
    requires Reflects(v, plans) && p.id !in plans && (p.prelim.None? ==> p.ops == [])
    requires v' == v.(heights := v.heights[p.id := p.height],
                      invalid := if p.prelim.Some? then v.invalid[p.id := p.prelim.value] else v.invalid)
    ensures Reflects(v', plans[p.id := p])
  {
    var now := plans[p.id := p];
    assert forall id :: OpsAt(now, id) == OpsAt(plans, id);
    SameOpsHold(v.nonBlind, plans, now, Versioned);
    SameOpsHold(v.blind, plans, now, Blind);
    SameOpsHold(v.newWrites, plans, now, Inserted);
    SameOpsRead(v, plans, now);
    NewPlanStatus(v, plans, p, v');
  }

  lemma NewPlanStatus(v: View, plans: map<TxId, Plan>, p: Plan, v': View)
    requires HoldsStatus(v, plans) && p.id !in plans
    requires v'.heights == v.heights[p.id := p.height]
    requires v'.invalid == if p.prelim.Some? then v.invalid[p.id := p.prelim.value] else v.invalid
    ensures HoldsStatus(v', plans[p.id := p])
  {
    var now := plans[p.id := p];
    assert v'.heights == map id | id in now :: now[id].height;
    assert v'.invalid == map id | id in now && now[id].prelim.Some? :: now[id].prelim.value;
  }

  // ---------------------------------------------------------------------
  // The preparer.

  lemma PutTwice(plans: map<TxId, Plan>, id: TxId, p: Plan, q: Plan)
    ensures plans[id := p][id := q] == plans[id := q]
  {
  }

  class PreparedTransactions {
    var nsToReads: map<Ns, seq<Read>>
    var readToTxIDs: map<CmpRead, seq<TxId>>
    var nonBlind: TxWrites
    var blind: TxWrites
    var newWrites: TxWrites
    var invalid: map<TxId, Status>
    var heights: map<TxId, Height>

    ghost function Fields(): View
      reads this
    {
      View(nsToReads, readToTxIDs, nonBlind, blind, newWrites, invalid, heights)
    }

    constructor ()
      ensures Reflects(Fields(), map[])
    {
      nsToReads, readToTxIDs := map[], map[];
      nonBlind, blind, newWrites := map[], map[], map[];
      invalid, heights := map[], map[];
    }

    method AddReadsOnly(id: TxId, ns: Ns, rs: seq<Read>, ghost plans: map<TxId, Plan>)
      requires Reflects(Fields(), plans) && id in plans && plans[id].prelim.None?
      modifies this
      ensures Reflects(Fields(), Extend(plans, id, ReadOps(ns, rs)))
    {
      ExtendNone(plans, id);
      if |rs| == 0 { return; }
      if ns !in nsToReads {
        nsToReads := nsToReads[ns := []];
        assert forall cr :: Listed(nsToReads, cr) == Listed(old(nsToReads), cr);
      }
      for i := 0 to |rs|
        invariant ns in nsToReads
        invariant Reflects(Fields(), Extend(plans, id, ReadOps(ns, rs[..i])))
      {
        ghost var now := Extend(plans, id, ReadOps(ns, rs[..i]));
        ghost var op := ReadOp(Loc(ns, rs[i].key), rs[i].version);
        ghost var v := Fields();
        var cr := NewCmpRead(ns, rs[i].key, rs[i].version);
        var present := cr in readToTxIDs;
        readToTxIDs := readToTxIDs[cr := (if present then readToTxIDs[cr] else []) + [id]];
        if !present {
          nsToReads := nsToReads[ns := nsToReads[ns] + [rs[i]]];
        }
        OpsSnoc(ns, rs, [], [], i);
        ExtendTwice(plans, id, ReadOps(ns, rs[..i]), [op]);
        RegisterHolds(v.readToTxIDs, now, id, op);
        BulkReadHolds(v.nsToReads, v.readToTxIDs, now, id, op);
        assert rs[i] == Read(rs[i].key, rs[i].version);
        OtherKindHolds(nonBlind, now, Versioned, id, op);
        OtherKindHolds(blind, now, Blind, id, op);
        OtherKindHolds(newWrites, now, Inserted, id, op);
        SameHeader(v, now, id, [op]);
      }
      assert rs[..|rs|] == rs;
    }

    method AddReadWrites(id: TxId, ns: Ns, rws: seq<ReadWrite>, ghost plans: map<TxId, Plan>)
      requires Reflects(Fields(), plans) && id in plans && plans[id].prelim.None?
      modifies this
      ensures Reflects(Fields(), Extend(plans, id, RwOps(ns, rws)))
    {
      ExtendNone(plans, id);
      if |rws| == 0 { return; }
      if ns !in nsToReads {
        nsToReads := nsToReads[ns := []];
        assert forall cr :: Listed(nsToReads, cr) == Listed(old(nsToReads), cr);
      }
      TouchHolds(nonBlind, plans, Versioned, id, ns);
      TouchHolds(newWrites, plans, Inserted, id, ns);
      nonBlind, newWrites := Touch(nonBlind, id, ns), Touch(newWrites, id, ns);
      for i := 0 to |rws|
        invariant ns in nsToReads
        invariant Reflects(Fields(), Extend(plans, id, RwOps(ns, rws[..i])))
      {
        ghost var now := Extend(plans, id, RwOps(ns, rws[..i]));
        ghost var op := RwOp(Loc(ns, rws[i].key), rws[i].version, rws[i].value);
        ghost var v := Fields();
        var cr := NewCmpRead(ns, rws[i].key, rws[i].version);
        var present := cr in readToTxIDs;
        readToTxIDs := readToTxIDs[cr := (if present then readToTxIDs[cr] else []) + [id]];
        if rws[i].version.Some? {
          if !present {
            nsToReads := nsToReads[ns := nsToReads[ns] + [Read(rws[i].key, rws[i].version)]];
          }
          nonBlind := Append(nonBlind, id, ns,
                             KeyWrite(rws[i].key, rws[i].value, NextVersion(rws[i].version.value)));
        } else {
          newWrites := Append(newWrites, id, ns, KeyWrite(rws[i].key, rws[i].value, 0));
        }
        OpsSnoc(ns, [], rws, [], i);
        ExtendTwice(plans, id, RwOps(ns, rws[..i]), [op]);
        RwStep(v, now, id, op);
        assert Fields() == AfterRw(v, id, op);
      }
      assert rws[..|rws|] == rws;
    }

    method AddBlindWrites(id: TxId, ns: Ns, ws: seq<BlindWrite>, ghost plans: map<TxId, Plan>)
      requires Reflects(Fields(), plans) && id in plans && plans[id].prelim.None?
      modifies this
      ensures Reflects(Fields(), Extend(plans, id, BlindOps(ns, ws)))
    {
      ExtendNone(plans, id);
      if |ws| == 0 { return; }
      TouchHolds(blind, plans, Blind, id, ns);
      blind := Touch(blind, id, ns);
      for i := 0 to |ws|
        invariant Reflects(Fields(), Extend(plans, id, BlindOps(ns, ws[..i])))
      {
        ghost var now := Extend(plans, id, BlindOps(ns, ws[..i]));
        ghost var op := BlindOp(Loc(ns, ws[i].key), ws[i].value);
        ghost var v := Fields();
        blind := Append(blind, id, ns, KeyWrite(ws[i].key, ws[i].value, 0));
        OpsSnoc(ns, [], [], ws, i);
        ExtendTwice(plans, id, BlindOps(ns, ws[..i]), [op]);
        AppendHolds(v.blind, now, Blind, id, op);
        OtherKindHolds(nonBlind, now, Versioned, id, op);
        OtherKindHolds(newWrites, now, Inserted, id, op);
        BlindHoldsReads(nsToReads, readToTxIDs, now, id, op);
        SameHeader(v, now, id, [op]);
      }
      assert ws[..|ws|] == ws;
    }

    method AddNamespace(id: TxId, ns: TxNamespace, ghost plans: map<TxId, Plan>)
      requires Reflects(Fields(), plans) && id in plans && plans[id].prelim.None?
      modifies this
      ensures Reflects(Fields(), Extend(plans, id, OpsOfNamespace(id, ns)))
    {
      if ns.nsId == SNAPSHOT_NS {
        var record := [ReadWrite(id, None, id)];
        assert RwOps(SNAPSHOT_NS, record) == OpsOfNamespace(id, ns);
        AddReadWrites(id, SNAPSHOT_NS, record, plans);
        return;
      }
      ghost var p1 := Extend(plans, id, ReadOps(ns.nsId, ns.readsOnly));
      ghost var p2 := Extend(p1, id, RwOps(ns.nsId, ns.readWrites));
      ghost var p3 := Extend(p2, id, BlindOps(ns.nsId, ns.blindWrites));
      AddReadsOnly(id, ns.nsId, ns.readsOnly, plans);
      AddReadWrites(id, ns.nsId, ns.readWrites, p1);
      AddBlindWrites(id, ns.nsId, ns.blindWrites, p2);
      // The version of the namespace the transaction was executed on must not be stale.
      if ns.nsId == META_NS {
        AddReadsOnly(id, CONFIG_NS, [Read(CONFIG_KEY, Some(ns.nsVersion))], p3);
      } else if ns.nsId == CONFIG_NS || ns.nsId == CHECKPOINT_NS {
        assert ReadOps(META_NS, []) == [];
        ExtendNone(p3, id);
      } else {
        AddReadsOnly(id, META_NS, [Read(ns.nsId, Some(ns.nsVersion))], p3);
      }
      ExtendTwice(plans, id, ReadOps(ns.nsId, ns.readsOnly), RwOps(ns.nsId, ns.readWrites));
      ExtendTwice(plans, id, ReadOps(ns.nsId, ns.readsOnly) + RwOps(ns.nsId, ns.readWrites),
                  BlindOps(ns.nsId, ns.blindWrites));
      ExtendTwice(plans, id, NsOps(ns), ReadOps(ImplicitReads(ns).0, ImplicitReads(ns).1));
    }

    method AddNamespaces(tx: VcTx, ghost plans: map<TxId, Plan>)
      requires Reflects(Fields(), plans) && tx.id in plans
      requires plans[tx.id] == Plan(tx.id, tx.height, None, []) && tx.prelim.None?
      modifies this
      ensures Reflects(Fields(), plans[tx.id := PlanOf(tx)])
    {
      ExtendNone(plans, tx.id);
      for j := 0 to |tx.namespaces|
        invariant Reflects(Fields(), Extend(plans, tx.id, OpsOf(tx.id, tx.namespaces[..j])))
      {
        AddNamespace(tx.id, tx.namespaces[j], Extend(plans, tx.id, OpsOf(tx.id, tx.namespaces[..j])));
        ExtendNamespace(plans, tx.id, tx.namespaces, j);
      }
      assert tx.namespaces[..|tx.namespaces|] == tx.namespaces;
      ExtendFromEmpty(plans, tx.id, OpsOf(tx.id, tx.namespaces));
    }

    /** A repeated ID is skipped; a preliminary status is kept without looking at the content. */
    method AddTx(tx: VcTx, ghost plans: map<TxId, Plan>)
      requires Reflects(Fields(), plans)
      modifies this
      ensures Reflects(Fields(), if tx.id in plans then plans else plans[tx.id := PlanOf(tx)])
    {
      if tx.id in heights {
        return;
      }
      if tx.prelim.Some? {
        AddRejectedTx(tx, plans);
        return;
      }
      AddContent(tx, plans);
    }

    method AddRejectedTx(tx: VcTx, ghost plans: map<TxId, Plan>)
      requires Reflects(Fields(), plans) && tx.id !in plans && tx.prelim.Some?
      modifies this
      ensures Reflects(Fields(), plans[tx.id := PlanOf(tx)])
    {
      ghost var v := Fields();
      heights := heights[tx.id := tx.height];
      invalid := invalid[tx.id := tx.prelim.value];
      NewPlanHolds(v, plans, PlanOf(tx), Fields());
    }

    method AddContent(tx: VcTx, ghost plans: map<TxId, Plan>)
      requires Reflects(Fields(), plans) && tx.id !in plans && tx.prelim.None?
      modifies this
      ensures Reflects(Fields(), plans[tx.id := PlanOf(tx)])
    {
      ghost var v, empty := Fields(), Plan(tx.id, tx.height, None, []);
      heights := heights[tx.id := tx.height];
      NewPlanHolds(v, plans, empty, Fields());
      AddNamespaces(tx, plans[tx.id := empty]);
      PutTwice(plans, tx.id, empty, PlanOf(tx));
    }

    /** The loop of prepare over one batch, up to the cleaning of empty entries. */
    method AddBatch(batch: seq<VcTx>)
      requires Reflects(Fields(), map[])
      modifies this
      ensures Reflects(Fields(), ById(batch))
    {
      for i := 0 to |batch|
        invariant Reflects(Fields(), ById(batch[..i]))
      {
        assert batch[..i + 1][..i] == batch[..i];
        AddTx(batch[i], ById(batch[..i]));
      }
      assert batch[..|batch|] == batch;
    }
  }

  /** clearEmpty: entries without writes go, at both levels. */
  method ClearEmpty(tw: TxWrites) returns (r: TxWrites)
    ensures Compact(r)
    ensures forall id, ns :: At(r, id, ns) == At(tw, id, ns)
  {
    r := tw;
    var todo := tw.Keys;
    while todo != {}
      invariant todo <= tw.Keys && r.Keys <= tw.Keys
      invariant forall id :: id in todo ==> id in r && r[id] == tw[id]
      invariant forall id :: id in r && id !in todo ==>
                  r[id] != map[] && forall ns :: ns in r[id] ==> r[id][ns] != []
      invariant forall id, ns :: At(r, id, ns) == At(tw, id, ns)
      decreases todo
    {
      var id :| id in todo;
      todo := todo - {id};
      var kept := map ns | ns in tw[id] && tw[id][ns] != [] :: tw[id][ns];
      ghost var before := r;
      if kept == map[] {
        assert forall ns :: ns in tw[id] && tw[id][ns] != [] ==> ns in kept;
        r := r - {id};
      } else {
        r := r[id := kept];
      }
      forall i, ns ensures At(r, i, ns) == At(tw, i, ns) {
        assert At(before, i, ns) == At(tw, i, ns);
      }
    }
  }

  predicate HasCheckpoint(tw: TxWrites, id: TxId) {
    At(tw, id, CHECKPOINT_NS) != []
  }

  predicate ValidCheckpoint(tw: TxWrites, id: TxId, decodeKey: Key -> Option<nat>, validValue: Value -> bool)
    requires HasCheckpoint(tw, id)
  {
    var w := At(tw, id, CHECKPOINT_NS)[0];
    decodeKey(w.key).Some? && validValue(w.value)
  }

  /** checkpointWriteInBatch: one checkpoint at most, and a well-formed one. */
  method CheckpointWriteInBatch(
    tw: TxWrites, heights: map<TxId, Height>, decodeKey: Key -> Option<nat>, validValue: Value -> bool)
    returns (cp: Option<CheckpointTx>, ok: bool)
    requires tw.Keys <= heights.Keys
    ensures ok <==>
            && (forall id :: HasCheckpoint(tw, id) ==> ValidCheckpoint(tw, id, decodeKey, validValue))
            && (forall i, j :: HasCheckpoint(tw, i) && HasCheckpoint(tw, j) ==> i == j)
    ensures ok ==> (cp.None? <==> forall id :: !HasCheckpoint(tw, id))
    ensures ok && cp.Some? ==>
              && HasCheckpoint(tw, cp.value.txId)
              && cp.value.height == heights[cp.value.txId]
              && cp.value.value == At(tw, cp.value.txId, CHECKPOINT_NS)[0].value
              && decodeKey(At(tw, cp.value.txId, CHECKPOINT_NS)[0].key) == Some(cp.value.snapshotBlockNum)
  {
    cp := None;
    var todo := tw.Keys;
    while todo != {}
      invariant todo <= tw.Keys
      invariant forall id :: HasCheckpoint(tw, id) && id !in todo ==>
                  cp.Some? && cp.value.txId == id && ValidCheckpoint(tw, id, decodeKey, validValue)
      invariant cp.Some? ==>
                  && cp.value.txId !in todo
                  && HasCheckpoint(tw, cp.value.txId)
                  && cp.value.height == heights[cp.value.txId]
                  && cp.value.value == At(tw, cp.value.txId, CHECKPOINT_NS)[0].value
                  && decodeKey(At(tw, cp.value.txId, CHECKPOINT_NS)[0].key) == Some(cp.value.snapshotBlockNum)
      decreases todo
    {
      var id :| id in todo;
      todo := todo - {id};
      if At(tw, id, CHECKPOINT_NS) == [] {
        continue;
      }
      var w := At(tw, id, CHECKPOINT_NS)[0];
      var blockNum := decodeKey(w.key);
      if blockNum.None? || !validValue(w.value) || cp.Some? {
        assert HasCheckpoint(tw, id);
        return cp, false;
      }
      cp := Some(CheckpointTx(id, heights[id], blockNum.value, w.value));
    }
    ok := true;
  }

  /** prepare, for one batch. */
  method Prepare(batch: seq<VcTx>) returns (p: PreparedTransactions)
    ensures fresh(p) && PreparedFrom(p.Fields(), ById(batch))
  {
    p := new PreparedTransactions();
    p.AddBatch(batch);
    ghost var v := p.Fields();
    p.nsToReads := map ns | ns in p.nsToReads && p.nsToReads[ns] != [] :: p.nsToReads[ns];
    p.nonBlind := ClearEmpty(p.nonBlind);
    p.blind := ClearEmpty(p.blind);
    p.newWrites := ClearEmpty(p.newWrites);
    ClearedReflects(v, p.Fields(), ById(batch));
  }

  lemma ClearedReflects(v: View, now: View, plans: map<TxId, Plan>)
    requires Reflects(v, plans)
    requires now == v.(nsToReads := now.nsToReads, nonBlind := now.nonBlind, blind := now.blind,
                       newWrites := now.newWrites)
    requires now.nsToReads == map ns | ns in v.nsToReads && v.nsToReads[ns] != [] :: v.nsToReads[ns]
    requires forall id, ns :: At(now.nonBlind, id, ns) == At(v.nonBlind, id, ns)
    requires forall id, ns :: At(now.blind, id, ns) == At(v.blind, id, ns)
    requires forall id, ns :: At(now.newWrites, id, ns) == At(v.newWrites, id, ns)
    ensures Reflects(now, plans)
  {
    assert forall cr :: Listed(now.nsToReads, cr) == Listed(v.nsToReads, cr);
    SameWritesHold(v.nonBlind, now.nonBlind, plans, Versioned);
    SameWritesHold(v.blind, now.blind, plans, Blind);
    SameWritesHold(v.newWrites, now.newWrites, plans, Inserted);
  }

  lemma SameWritesHold(a: TxWrites, b: TxWrites, plans: map<TxId, Plan>, kind: Kind)
    requires HoldsWrites(a, plans, kind) && forall id, ns :: At(b, id, ns) == At(a, id, ns)
    ensures HoldsWrites(b, plans, kind)
  {
    forall id, ns ensures At(b, id, ns) == WritesOf(kind, OpsAt(plans, id), ns) {
      assert At(a, id, ns) == WritesOf(kind, OpsAt(plans, id), ns);
    }
  }
}
