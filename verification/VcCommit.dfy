/** service/vc/validator.go and service/vc/committer.go: pruning invalid transactions, placing blind
    writes, and the commit loop. */
module VcCommit {
  import opened Common
  import opened VcTypes
  import opened VcPrepare
  import opened VcDatabase

  // ---------------------------------------------------------------------
  // Grouping by namespace.

  predicate Apart(vs: seq<KeyWrite>, ws: seq<KeyWrite>) {
    forall v, w :: v in vs && w in ws ==> v.key != w.key
  }

  /** No two entries of tw write one key. */
  predicate DisjointKeys(tw: TxWrites) {
    && (forall id, ns :: id in tw && ns in tw[id] ==> DistinctKeys(tw[id][ns]))
    && (forall i, j, ns :: i in tw && j in tw && i != j && ns in tw[i] && ns in tw[j] ==> Apart(tw[i][ns], tw[j][ns]))
  }

  ghost predicate SomeTxWrites(tw: TxWrites, ns: Ns, w: KeyWrite) {
    exists id :: w in At(tw, id, ns)
  }

  predicate In(nw: NsWrites, ns: Ns, w: KeyWrite) {
    ns in nw && w in nw[ns]
  }

  ghost predicate Groups(nw: NsWrites, tw: TxWrites) {
    && (forall ns, w :: In(nw, ns, w) <==> SomeTxWrites(tw, ns, w))
    && (forall ns :: ns in nw ==> nw[ns] != [])
  }

  predicate AllDistinct(nw: NsWrites) {
    forall ns :: ns in nw ==> DistinctKeys(nw[ns])
  }

  function PutAll(tw: TxWrites, id: TxId, ns: Ns, ws: seq<KeyWrite>): TxWrites {
    tw[id := (if id in tw then tw[id] else map[])[ns := ws]]
  }

  function GroupOne(nw: NsWrites, ns: Ns, ws: seq<KeyWrite>): NsWrites {
    if ws == [] then nw else nw[ns := (if ns in nw then nw[ns] else []) + ws]
  }

  lemma GroupOneGroups(nw: NsWrites, part: TxWrites, id: TxId, ns: Ns, ws: seq<KeyWrite>)
    requires Groups(nw, part) && At(part, id, ns) == []
    ensures Groups(GroupOne(nw, ns, ws), PutAll(part, id, ns, ws))
  {
    var nw', part' := GroupOne(nw, ns, ws), PutAll(part, id, ns, ws);
    forall n, w ensures In(nw', n, w) <==> SomeTxWrites(part', n, w) {
      assert In(nw, n, w) <==> SomeTxWrites(part, n, w);
      if SomeTxWrites(part, n, w) {
        var i :| w in At(part, i, n);
        assert w in At(part', i, n);
      }
      if n == ns && w in ws {
        assert w in At(part', id, ns);
      }
      if SomeTxWrites(part', n, w) {
        var i :| w in At(part', i, n);
        assert w in At(part, i, n) || (n == ns && i == id && w in ws);
      }
    }
  }

  lemma GroupOneDistinct(nw: NsWrites, part: TxWrites, tw: TxWrites, id: TxId, ns: Ns)
    requires Groups(nw, part) && AllDistinct(nw) && DisjointKeys(tw)
    requires id in tw && ns in tw[id]
    requires At(part, id, ns) == []
    requires forall i, n :: At(part, i, n) != [] ==> At(part, i, n) == At(tw, i, n)
    ensures AllDistinct(GroupOne(nw, ns, tw[id][ns]))
  {
    if ns in nw && tw[id][ns] != [] {
      var a, b := nw[ns], tw[id][ns];
      forall v, w | v in a && w in b ensures v.key != w.key {
        assert In(nw, ns, v);
        var i :| v in At(part, i, ns);
        assert v in At(tw, i, ns) && i != id;
      }
      forall x, y | 0 <= x < y < |a + b| ensures (a + b)[x].key != (a + b)[y].key {
        if x < |a| <= y {
          assert (a + b)[x] in a && (a + b)[y] in b;
        }
      }
    }
  }

  method GroupNamespaces(nw: NsWrites, tw: TxWrites, id: TxId, ghost part: TxWrites)
    returns (r: NsWrites, ghost part': TxWrites)
    requires id in tw && Groups(nw, part) && id !in part
    requires forall i, n :: At(part, i, n) != [] ==> At(part, i, n) == At(tw, i, n)
    requires DisjointKeys(tw) ==> AllDistinct(nw)
    ensures Groups(r, part') && (DisjointKeys(tw) ==> AllDistinct(r))
    ensures part'.Keys <= part.Keys + {id}
    ensures forall i, n :: i != id ==> At(part', i, n) == At(part, i, n)
    ensures forall n :: At(part', id, n) == At(tw, id, n)
  {
    r, part' := nw, part;
    var todo := tw[id].Keys;
    while todo != {}
      invariant todo <= tw[id].Keys
      invariant Groups(r, part') && (DisjointKeys(tw) ==> AllDistinct(r))
      invariant part'.Keys <= part.Keys + {id}
      invariant forall i, n :: i != id ==> At(part', i, n) == At(part, i, n)
      invariant forall n :: At(part', id, n) == if n in todo then [] else At(tw, id, n)
      decreases todo
    {
      var ns :| ns in todo;
      todo := todo - {ns};
      GroupOneGroups(r, part', id, ns, tw[id][ns]);
      if DisjointKeys(tw) {
        GroupOneDistinct(r, part', tw, id, ns);
      }
      r := GroupOne(r, ns, tw[id][ns]);
      part' := PutAll(part', id, ns, tw[id][ns]);
    }
  }

  /** groupWritesByNamespace */
  method GroupWritesByNamespace(tw: TxWrites) returns (nw: NsWrites)
    ensures Groups(nw, tw)
    ensures DisjointKeys(tw) ==> AllDistinct(nw)
  {
    nw := map[];
    ghost var part: TxWrites := map[];
    var todo := tw.Keys;
    while todo != {}
      invariant todo <= tw.Keys && part.Keys !! todo
      invariant Groups(nw, part) && (DisjointKeys(tw) ==> AllDistinct(nw))
      invariant forall i, n :: At(part, i, n) == if i in todo then [] else At(tw, i, n)
      decreases todo
    {
      var id :| id in todo;
      todo := todo - {id};
      nw, part := GroupNamespaces(nw, tw, id, part);
    }
    forall ns, w ensures In(nw, ns, w) <==> SomeTxWrites(tw, ns, w) {
      assert In(nw, ns, w) <==> SomeTxWrites(part, ns, w);
      assert forall id :: At(part, id, ns) == At(tw, id, ns);
    }
  }

  // ---------------------------------------------------------------------
  // Blind writes.

  function Present(states: States, ns: Ns, ws: seq<KeyWrite>): seq<KeyWrite> {
    if ws == [] then [] else
      var w, front := ws[|ws| - 1], Present(states, ns, ws[..|ws| - 1]);
      if Loc(ns, w.key) in states
      then front + [KeyWrite(w.key, w.value, NextVersion(states[Loc(ns, w.key)].version))]
      else front
  }

  function Absent(states: States, ns: Ns, ws: seq<KeyWrite>): seq<KeyWrite> {
    if ws == [] then [] else
      var w, front := ws[|ws| - 1], Absent(states, ns, ws[..|ws| - 1]);
      if Loc(ns, w.key) in states then front else front + [KeyWrite(w.key, w.value, 0)]
  }

  /** The write maps once every blind write is placed by whether its key exists in states. */
  ghost predicate Placed(states: States, nonBlind: TxWrites, blind: TxWrites, newWrites: TxWrites,
                         nonBlind': TxWrites, newWrites': TxWrites) {
    && (forall id, ns :: At(nonBlind', id, ns) == At(nonBlind, id, ns) + Present(states, ns, At(blind, id, ns)))
    && (forall id, ns :: At(newWrites', id, ns) == At(newWrites, id, ns) + Absent(states, ns, At(blind, id, ns)))
    && nonBlind'.Keys + newWrites'.Keys == nonBlind.Keys + blind.Keys + newWrites.Keys
  }

  /** tw' is tw with ws appended at one entry. */
  ghost predicate Grew(tw: TxWrites, tw': TxWrites, id: TxId, ns: Ns, ws: seq<KeyWrite>) {
    && Compact(tw')
    && (forall i, n :: i != id || n != ns ==> At(tw', i, n) == At(tw, i, n))
    && At(tw', id, ns) == At(tw, id, ns) + ws
    && tw'.Keys == if ws == [] then tw.Keys else tw.Keys + {id}
  }

  lemma AppendAt(tw: TxWrites, id: TxId, ns: Ns, w: KeyWrite, i: TxId, n: Ns)
    ensures At(Append(tw, id, ns, w), i, n) == At(tw, i, n) + if i == id && n == ns then [w] else []
    ensures Append(tw, id, ns, w).Keys == tw.Keys + {id}
  {
  }

  lemma AppendCompact(tw: TxWrites, id: TxId, ns: Ns, w: KeyWrite)
    requires Compact(tw)
    ensures Compact(Append(tw, id, ns, w))
  {
  }

  lemma AppendGrows(tw: TxWrites, tw': TxWrites, id: TxId, ns: Ns, ws: seq<KeyWrite>, w: KeyWrite)
    requires Grew(tw, tw', id, ns, ws)
    ensures Grew(tw, Append(tw', id, ns, w), id, ns, ws + [w])
  {
    var now := Append(tw', id, ns, w);
    AppendCompact(tw', id, ns, w);
    forall i, n | i != id || n != ns ensures At(now, i, n) == At(tw, i, n) {
      AppendAt(tw', id, ns, w, i, n);
    }
    AppendAt(tw', id, ns, w, id, ns);
    assert At(tw, id, ns) + (ws + [w]) == At(tw, id, ns) + ws + [w];
  }

  method PlaceNs(nonBlind: TxWrites, newWrites: TxWrites, id: TxId, ns: Ns, ws: seq<KeyWrite>,
                 found: map<Key, Version>, ghost states: States)
    returns (nonBlind': TxWrites, newWrites': TxWrites)
    requires forall w :: w in ws ==> (w.key in found <==> Loc(ns, w.key) in states)
    requires forall w :: w in ws && w.key in found ==> found[w.key] == states[Loc(ns, w.key)].version
    requires Compact(nonBlind) && Compact(newWrites)
    ensures Grew(nonBlind, nonBlind', id, ns, Present(states, ns, ws))
    ensures Grew(newWrites, newWrites', id, ns, Absent(states, ns, ws))
  {
    nonBlind', newWrites' := nonBlind, newWrites;
    for k := 0 to |ws|
      invariant Grew(nonBlind, nonBlind', id, ns, Present(states, ns, ws[..k]))
      invariant Grew(newWrites, newWrites', id, ns, Absent(states, ns, ws[..k]))
    {
      var w := ws[k];
      assert ws[..k + 1][..k] == ws[..k];
      if w.key in found {
        var w' := KeyWrite(w.key, w.value, NextVersion(found[w.key]));
        AppendGrows(nonBlind, nonBlind', id, ns, Present(states, ns, ws[..k]), w');
        nonBlind' := Append(nonBlind', id, ns, w');
      } else {
        var w' := KeyWrite(w.key, w.value, 0);
        AppendGrows(newWrites, newWrites', id, ns, Absent(states, ns, ws[..k]), w');
        newWrites' := Append(newWrites', id, ns, w');
      }
    }
    assert ws[..|ws|] == ws;
  }

  function Split(present: bool, states: States, ns: Ns, ws: seq<KeyWrite>): seq<KeyWrite> {
    if present then Present(states, ns, ws) else Absent(states, ns, ws)
  }

  lemma SplitNonEmpty(states: States, ns: Ns, ws: seq<KeyWrite>)
    ensures ws != [] <==> Present(states, ns, ws) != [] || Absent(states, ns, ws) != []
  {
  }

  /** tw' is tw with the placed writes of part. */
  ghost predicate GrewBy(tw: TxWrites, tw': TxWrites, part: TxWrites, present: bool, states: States) {
    && Compact(tw')
    && forall i, n :: At(tw', i, n) == At(tw, i, n) + Split(present, states, n, At(part, i, n))
  }

  lemma GrewByNext(tw: TxWrites, was: TxWrites, now: TxWrites, part: TxWrites, present: bool, states: States,
                   id: TxId, ns: Ns, ws: seq<KeyWrite>)
    requires GrewBy(tw, was, part, present, states) && At(part, id, ns) == []
    requires Grew(was, now, id, ns, Split(present, states, ns, ws))
    ensures GrewBy(tw, now, PutAll(part, id, ns, ws), present, states)
  {
    var part' := PutAll(part, id, ns, ws);
    forall i, n ensures At(now, i, n) == At(tw, i, n) + Split(present, states, n, At(part', i, n)) {
      assert At(was, i, n) == At(tw, i, n) + Split(present, states, n, At(part, i, n));
      if i == id && n == ns {
        assert At(was, id, ns) == At(tw, id, ns);
        assert At(part', id, ns) == ws;
      } else {
        assert At(part', i, n) == At(part, i, n);
        assert At(now, i, n) == At(was, i, n);
      }
    }
  }

  lemma HasKey(tw: TxWrites, id: TxId)
    requires Compact(tw)
    ensures id in tw <==> exists ns :: At(tw, id, ns) != []
  {
    if id in tw {
      var ns :| ns in tw[id];
      assert At(tw, id, ns) != [];
    }
  }

  lemma PlacedAt(states: States, nonBlind: TxWrites, blind: TxWrites, newWrites: TxWrites,
                 nonBlind': TxWrites, newWrites': TxWrites, part: TxWrites, id: TxId, ns: Ns)
    requires GrewBy(nonBlind, nonBlind', part, true, states) && GrewBy(newWrites, newWrites', part, false, states)
    requires At(part, id, ns) == At(blind, id, ns)
    ensures At(nonBlind', id, ns) == At(nonBlind, id, ns) + Present(states, ns, At(blind, id, ns))
    ensures At(newWrites', id, ns) == At(newWrites, id, ns) + Absent(states, ns, At(blind, id, ns))
    ensures (At(nonBlind', id, ns) != [] || At(newWrites', id, ns) != []) <==>
            (At(nonBlind, id, ns) != [] || At(blind, id, ns) != [] || At(newWrites, id, ns) != [])
  {
    assert At(nonBlind', id, ns) == At(nonBlind, id, ns) + Split(true, states, ns, At(part, id, ns));
    assert At(newWrites', id, ns) == At(newWrites, id, ns) + Split(false, states, ns, At(part, id, ns));
    SplitNonEmpty(states, ns, At(blind, id, ns));
  }

  lemma PlacedAll(states: States, nonBlind: TxWrites, blind: TxWrites, newWrites: TxWrites,
                  nonBlind': TxWrites, newWrites': TxWrites, part: TxWrites)
    requires Compact(nonBlind) && Compact(blind) && Compact(newWrites)
    requires GrewBy(nonBlind, nonBlind', part, true, states) && GrewBy(newWrites, newWrites', part, false, states)
    requires forall i, n :: At(part, i, n) == At(blind, i, n)
    ensures Placed(states, nonBlind, blind, newWrites, nonBlind', newWrites')
  {
    forall i, n ensures
      && At(nonBlind', i, n) == At(nonBlind, i, n) + Present(states, n, At(blind, i, n))
      && At(newWrites', i, n) == At(newWrites, i, n) + Absent(states, n, At(blind, i, n))
    {
      PlacedAt(states, nonBlind, blind, newWrites, nonBlind', newWrites', part, i, n);
    }
    PlacedKeys(states, nonBlind, blind, newWrites, nonBlind', newWrites', part);
  }

  lemma PlacedKeys(states: States, nonBlind: TxWrites, blind: TxWrites, newWrites: TxWrites,
                   nonBlind': TxWrites, newWrites': TxWrites, part: TxWrites)
    requires Compact(nonBlind) && Compact(blind) && Compact(newWrites)
    requires GrewBy(nonBlind, nonBlind', part, true, states) && GrewBy(newWrites, newWrites', part, false, states)
    requires forall i, n :: At(part, i, n) == At(blind, i, n)
    ensures nonBlind'.Keys + newWrites'.Keys == nonBlind.Keys + blind.Keys + newWrites.Keys
  {
    forall id ensures id in nonBlind'.Keys + newWrites'.Keys <==> id in nonBlind.Keys + blind.Keys + newWrites.Keys {
      HasKey(nonBlind, id);
      HasKey(blind, id);
      HasKey(newWrites, id);
      HasKey(nonBlind', id);
      HasKey(newWrites', id);
      forall ns ensures (At(nonBlind', id, ns) != [] || At(newWrites', id, ns) != []) <==>
        (At(nonBlind, id, ns) != [] || At(blind, id, ns) != [] || At(newWrites, id, ns) != [])
      {
        PlacedAt(states, nonBlind, blind, newWrites, nonBlind', newWrites', part, id, ns);
      }
    }
  }

  /** found has the committed version of every key of nw that exists. */
  ghost predicate Found(found: map<Ns, map<Key, Version>>, nw: NsWrites, states: States) {
    forall ns, w :: In(nw, ns, w) ==> FoundAt(found, ns, w.key, states)
  }

  predicate FoundAt(found: map<Ns, map<Key, Version>>, ns: Ns, key: Key, states: States) {
    ns in found && (key in found[ns] <==> Loc(ns, key) in states) &&
    (key in found[ns] ==> found[ns][key] == states[Loc(ns, key)].version)
  }

  /** part' is part with the entries of nw under id, but for those in todo. */
  ghost predicate PartOf(part: TxWrites, part': TxWrites, id: TxId, nw: NsWrites, todo: set<Ns>) {
    && (forall ns :: At(part', id, ns) == if ns in nw && ns !in todo then nw[ns] else [])
    && (forall i, n :: i != id ==> At(part', i, n) == At(part, i, n))
  }

  lemma PartNext(part: TxWrites, part': TxWrites, id: TxId, nw: NsWrites, todo: set<Ns>, ns: Ns)
    requires PartOf(part, part', id, nw, todo) && ns in todo && ns in nw
    ensures At(part', id, ns) == []
    ensures PartOf(part, PutAll(part', id, ns, nw[ns]), id, nw, todo - {ns})
  {
    var now := PutAll(part', id, ns, nw[ns]);
    forall n ensures At(now, id, n) == if n in nw && n !in todo - {ns} then nw[n] else [] {
      assert At(part', id, n) == if n in nw && n !in todo then nw[n] else [];
    }
    forall i, n | i != id ensures At(now, i, n) == At(part, i, n) {
      assert At(part', i, n) == At(part, i, n);
    }
  }

  /** The entries of one transaction are placed, namespace by namespace. */
  method PlaceTx(nonBlind: TxWrites, newWrites: TxWrites, id: TxId, nw: NsWrites,
                 found: map<Ns, map<Key, Version>>, ghost states: States,
                 ghost nonBlind0: TxWrites, ghost newWrites0: TxWrites, ghost part: TxWrites)
    returns (nonBlind': TxWrites, newWrites': TxWrites, ghost part': TxWrites)
    requires Found(found, nw, states) && forall ns :: ns in nw ==> nw[ns] != []
    requires GrewBy(nonBlind0, nonBlind, part, true, states) && GrewBy(newWrites0, newWrites, part, false, states)
    requires forall ns :: At(part, id, ns) == []
    ensures GrewBy(nonBlind0, nonBlind', part', true, states) && GrewBy(newWrites0, newWrites', part', false, states)
    ensures PartOf(part, part', id, nw, {})
  {
    nonBlind', newWrites', part' := nonBlind, newWrites, part;
    var todo := nw.Keys;
    while todo != {}
      invariant todo <= nw.Keys
      invariant GrewBy(nonBlind0, nonBlind', part', true, states)
      invariant GrewBy(newWrites0, newWrites', part', false, states)
      invariant PartOf(part, part', id, nw, todo)
      decreases todo
    {
      var ns :| ns in todo;
      PartNext(part, part', id, nw, todo, ns);
      ghost var was, wasNew := nonBlind', newWrites';
      assert In(nw, ns, nw[ns][0]);
      assert forall w :: w in nw[ns] ==> In(nw, ns, w);
      nonBlind', newWrites' := PlaceNs(nonBlind', newWrites', id, ns, nw[ns], found[ns], states);
      GrewByNext(nonBlind0, was, nonBlind', part', true, states, id, ns, nw[ns]);
      GrewByNext(newWrites0, wasNew, newWrites', part', false, states, id, ns, nw[ns]);
      part' := PutAll(part', id, ns, nw[ns]);
      todo := todo - {ns};
    }
  }

  ghost predicate Remaining(part: TxWrites, blind: TxWrites, todo: set<TxId>) {
    forall i, n :: At(part, i, n) == if i in todo then [] else At(blind, i, n)
  }

  lemma RemainingNext(part: TxWrites, part': TxWrites, blind: TxWrites, todo: set<TxId>, id: TxId)
    requires Remaining(part, blind, todo) && id in todo && id in blind && PartOf(part, part', id, blind[id], {})
    ensures Remaining(part', blind, todo - {id})
  {
    forall i, n ensures At(part', i, n) == if i in todo - {id} then [] else At(blind, i, n) {
      assert At(part, i, n) == if i in todo then [] else At(blind, i, n);
      if i == id {
        assert At(part', id, n) == if n in blind[id] then blind[id][n] else [];
      }
    }
  }

  method PlaceBlindWrites(nonBlind: TxWrites, blind: TxWrites, newWrites: TxWrites,
                          found: map<Ns, map<Key, Version>>, ghost states: States)
    returns (nonBlind': TxWrites, newWrites': TxWrites)
    requires Compact(nonBlind) && Compact(blind) && Compact(newWrites)
    requires forall id :: id in blind ==> Found(found, blind[id], states)
    ensures Placed(states, nonBlind, blind, newWrites, nonBlind', newWrites')
    ensures Compact(nonBlind') && Compact(newWrites')
  {
    nonBlind', newWrites' := nonBlind, newWrites;
    ghost var part: TxWrites := map[];
    var todo := blind.Keys;
    while todo != {}
      invariant todo <= blind.Keys
      invariant GrewBy(nonBlind, nonBlind', part, true, states) && GrewBy(newWrites, newWrites', part, false, states)
      invariant Remaining(part, blind, todo)
      decreases todo
    {
      var id :| id in todo;
      ghost var was := part;
      assert forall ns :: At(part, id, ns) == [];
      nonBlind', newWrites', part := PlaceTx(nonBlind', newWrites', id, blind[id], found, states, nonBlind, newWrites,
        part);
      RemainingNext(was, part, blind, todo, id);
      todo := todo - {id};
    }
    PlacedAll(states, nonBlind, blind, newWrites, nonBlind', newWrites', part);
  }

  // ---------------------------------------------------------------------
  // Pruning.

  datatype Feedback = Feedback(hold: bool, txId: TxId, height: Height, snapshotBlockNum: nat)

  /** The fields of validatedTransactions. */
  datatype Batch = Batch(
    nonBlind: TxWrites, blind: TxWrites, newWrites: TxWrites,
    readToTxIDs: map<CmpRead, seq<TxId>>,
    invalid: map<TxId, Status>,
    heights: map<TxId, Height>,
    checkpoint: Option<CheckpointTx>,
    feedback: Option<Feedback>)

  function IdSet(ids: seq<TxId>): set<TxId> {
    set id | id in ids
  }

  /** bad loses its writes and gets status. */
  function Pruned(b: Batch, bad: set<TxId>, status: Status): Batch {
    b.(nonBlind := b.nonBlind - bad, blind := b.blind - bad, newWrites := b.newWrites - bad,
       invalid := b.invalid + Const(bad, status),
       checkpoint := if b.checkpoint.Some? && b.checkpoint.value.txId in bad then None else b.checkpoint)
  }

  lemma MinusTwice<K, V>(m: map<K, V>, a: set<K>, b: set<K>)
    ensures m - a - b == m - (a + b)
  {
  }

  function Const(ids: set<TxId>, status: Status): map<TxId, Status> {
    map id | id in ids :: status
  }

  lemma ConstTwice(m: map<TxId, Status>, a: set<TxId>, b: set<TxId>, status: Status)
    ensures m + Const(a, status) + Const(b, status) == m + Const(a + b, status)
  {
  }

  lemma PrunedTwice(b: Batch, bad: set<TxId>, more: set<TxId>, status: Status)
    ensures Pruned(Pruned(b, bad, status), more, status) == Pruned(b, bad + more, status)
  {
    MinusTwice(b.nonBlind, bad, more);
    MinusTwice(b.blind, bad, more);
    MinusTwice(b.newWrites, bad, more);
    ConstTwice(b.invalid, bad, more, status);
  }

  lemma PrunedNone(b: Batch, status: Status)
    ensures Pruned(b, {}, status) == b
  {
    assert b.nonBlind - {} == b.nonBlind;
    assert b.blind - {} == b.blind;
    assert b.newWrites - {} == b.newWrites;
  }

  lemma ConstOne(m: map<TxId, Status>, id: TxId, status: Status)
    ensures m[id := status] == m + Const({id}, status)
  {
  }

  /** A transaction made one of the conflicting reads. */
  ghost predicate HitBy(rtt: map<CmpRead, seq<TxId>>, conflicts: map<Ns, seq<Read>>, id: TxId) {
    exists ns, r :: Reports(conflicts, ns, r) && Registered(rtt, NewCmpRead(ns, r.key, r.version), id)
  }

  ghost predicate AllRegistered(rtt: map<CmpRead, seq<TxId>>, conflicts: map<Ns, seq<Read>>) {
    forall ns, r :: Reports(conflicts, ns, r) ==> NewCmpRead(ns, r.key, r.version) in rtt
  }

  function Hits(rtt: map<CmpRead, seq<TxId>>, conflicts: map<Ns, seq<Read>>): (ids: set<TxId>)
    ensures forall id :: id in ids <==> HitBy(rtt, conflicts, id)
  {
    set ns, r, id | ns in conflicts && r in conflicts[ns] && NewCmpRead(ns, r.key, r.version) in rtt
                    && id in rtt[NewCmpRead(ns, r.key, r.version)] :: id
  }

  predicate StaleRead(states: States, ns: Ns, r: Read) {
    VersionAt(states, Loc(ns, r.key)) != r.version
  }

  // ---------------------------------------------------------------------
  // Statuses.

  function ListedIds(b: Batch): set<TxId> {
    b.nonBlind.Keys + b.blind.Keys + b.newWrites.Keys + b.invalid.Keys
  }

  function StatusFor(b: Batch, id: TxId): Status {
    if id in b.invalid then b.invalid[id] else Committed
  }

  /** statuses reports every listed transaction, once. */
  ghost predicate StatusesOf(b: Batch, statuses: seq<TxStatus>) {
    && DistinctIds(statuses)
    && (forall s :: s in statuses ==>
          s.id in ListedIds(b) && s.id in b.heights && s == TxStatus(s.id, b.heights[s.id], StatusFor(b, s.id)))
    && (forall id :: id in ListedIds(b) ==> exists s :: s in statuses && s.id == id)
  }

  /** A duplicate that is a replay of a stored transaction takes the stored status. */
  function Corrected(rows: map<TxId, Row>, s: TxStatus): TxStatus {
    if s.status == RejectedDuplicateTxId && s.id in rows && rows[s.id].height == s.height
    then TxStatus(s.id, s.height, rows[s.id].status) else s
  }

  predicate AllCorrected(rows: map<TxId, Row>, statuses: seq<TxStatus>, r: seq<TxStatus>) {
    |r| == |statuses| && forall i :: 0 <= i < |r| ==> r[i] == Corrected(rows, statuses[i])
  }

  method SetCorrectStatusForDuplicateTxID(db: Database, statuses: seq<TxStatus>) returns (r: seq<TxStatus>)
    requires DistinctIds(statuses)
    ensures AllCorrected(db.txStatus, statuses, r)
  {
    r := statuses;
    var index: map<TxId, nat> := map[];
    for i := 0 to |statuses|
      invariant forall id :: id in index ==>
                  index[id] < i && statuses[index[id]].id == id && statuses[index[id]].status == RejectedDuplicateTxId
      invariant forall j :: 0 <= j < i && statuses[j].status == RejectedDuplicateTxId ==>
                  statuses[j].id in index && index[statuses[j].id] == j
    {
      if statuses[i].status == RejectedDuplicateTxId {
        index := index[statuses[i].id := i];
      }
    }
    var todo := set id | id in index && id in db.txStatus;
    ghost var all := todo;
    while todo != {}
      invariant todo <= all
      invariant |r| == |statuses|
      invariant forall i :: 0 <= i < |r| ==>
                  r[i] == if statuses[i].id in todo then statuses[i] else Corrected(db.txStatus, statuses[i])
      decreases todo
    {
      var id :| id in todo;
      todo := todo - {id};
      var row, i := db.txStatus[id], index[id];
      if row.height == statuses[i].height {
        r := r[i := TxStatus(id, row.height, row.status)];
      }
    }
  }

  /** seen, with the namespace ns as it is in states. */
  function SeenNext(seen: States, states: States, ns: Ns): States {
    map loc | loc in seen.Keys + states.Keys && (if loc.ns == ns then loc in states else loc in seen) ::
      if loc.ns == ns then states[loc] else seen[loc]
  }

  /** One query for each namespace; seen puts together what they found. */
  method QueryVersions(db: Database, grouped: NsWrites) returns (state: map<Ns, map<Key, Version>>, ghost seen: States)
    modifies db
    ensures Found(state, grouped, seen)
    ensures old(Quiet(db.others)) ==> Quiet(db.others) && db.Contents() == old(db.Contents()) && seen == db.states
  {
    state, seen := map[], map[];
    var todo := grouped.Keys;
    while todo != {}
      invariant todo <= grouped.Keys && state.Keys == grouped.Keys - todo
      invariant old(Quiet(db.others)) ==> Quiet(db.others) && db.Contents() == old(db.Contents())
      invariant forall ns, w :: In(grouped, ns, w) && ns !in todo ==> FoundAt(state, ns, w.key, seen)
      invariant old(Quiet(db.others)) ==>
                  forall ns, w :: In(grouped, ns, w) && ns !in todo ==> FoundAt(state, ns, w.key, db.states)
      decreases todo
    {
      var ns :| ns in todo;
      db.LetOthersWrite();
      var found := db.QueryVersionsIfPresent(ns, grouped[ns]);
      state, seen := state[ns := found], SeenNext(seen, db.states, ns);
      forall w | w in grouped[ns] ensures FoundAt(state, ns, w.key, db.states) {
        assert Names(grouped[ns], w.key);
      }
      todo := todo - {ns};
    }
    if old(Quiet(db.others)) { seen := db.states; }
  }

  datatype Verdict = Accept | Reject(status: Status) | Withhold(hold: bool)

  class ValidatedTransactions {
    var nonBlind: TxWrites
    var blind: TxWrites
    var newWrites: TxWrites
    var readToTxIDs: map<CmpRead, seq<TxId>>
    var invalid: map<TxId, Status>
    var heights: map<TxId, Height>
    var checkpoint: Option<CheckpointTx>
    var feedback: Option<Feedback>

    ghost function Fields(): Batch
      reads this
    {
      Batch(nonBlind, blind, newWrites, readToTxIDs, invalid, heights, checkpoint, feedback)
    }

    constructor (p: PreparedTransactions, cp: Option<CheckpointTx>)
      ensures Fields() == Batch(p.nonBlind, p.blind, p.newWrites, p.readToTxIDs, p.invalid, p.heights, cp, None)
    {
      nonBlind, blind, newWrites := p.nonBlind, p.blind, p.newWrites;
      readToTxIDs, invalid, heights := p.readToTxIDs, p.invalid, p.heights;
      checkpoint, feedback := cp, None;
    }

    method UpdateInvalidTxs(ids: seq<TxId>, status: Status)
      modifies this
      ensures Fields() == Pruned(old(Fields()), IdSet(ids), status)
    {
      PrunedNone(Fields(), status);
      assert IdSet(ids[..0]) == {};
      for i := 0 to |ids|
        invariant Fields() == Pruned(old(Fields()), IdSet(ids[..i]), status)
      {
        UpdateInvalidTx(ids[i], status);
        PrunedTwice(old(Fields()), IdSet(ids[..i]), {ids[i]}, status);
        assert IdSet(ids[..i + 1]) == IdSet(ids[..i]) + {ids[i]};
      }
      assert ids[..|ids|] == ids;
    }

    method UpdateInvalidTx(id: TxId, status: Status)
      modifies this
      ensures Fields() == Pruned(old(Fields()), {id}, status)
    {
      nonBlind, blind, newWrites := nonBlind - {id}, blind - {id}, newWrites - {id};
      if checkpoint.Some? && checkpoint.value.txId == id {
        checkpoint := None;
      }
      ConstOne(invalid, id, status);
      invalid := invalid[id := status];
    }

    method InvalidateTxsOnReads(ns: Ns, rs: seq<Read>) returns (ok: bool)
      modifies this
      ensures ok <==> AllRegistered(old(readToTxIDs), map[ns := rs])
      ensures ok ==> Fields() == Pruned(old(Fields()), Hits(old(readToTxIDs), map[ns := rs]), AbortedMvccConflict)
    {
      PrunedNone(Fields(), AbortedMvccConflict);
      ghost var rtt := readToTxIDs;
      assert Hits(rtt, map[ns := rs[..0]]) == {};
      for i := 0 to |rs|
        invariant readToTxIDs == rtt
        invariant Fields() == Pruned(old(Fields()), Hits(rtt, map[ns := rs[..i]]), AbortedMvccConflict)
        invariant AllRegistered(rtt, map[ns := rs[..i]])
      {
        var cr := NewCmpRead(ns, rs[i].key, rs[i].version);
        if cr !in readToTxIDs {
          assert Reports(map[ns := rs], ns, rs[i]);
          return false;
        }
        HitNext(rtt, ns, rs, i);
        PrunedTwice(old(Fields()), Hits(rtt, map[ns := rs[..i]]), IdSet(readToTxIDs[cr]), AbortedMvccConflict);
        UpdateInvalidTxs(readToTxIDs[cr], AbortedMvccConflict);
      }
      assert rs[..|rs|] == rs;
      ok := true;
    }

    /** Fails, as a bug, when a conflict is on a read nobody made. */
    method InvalidateTxsOnReadConflicts(conflicts: map<Ns, seq<Read>>) returns (ok: bool)
      modifies this
      ensures ok <==> AllRegistered(old(readToTxIDs), conflicts)
      ensures ok ==> Fields() == Pruned(old(Fields()), Hits(old(readToTxIDs), conflicts), AbortedMvccConflict)
    {
      ghost var done: map<Ns, seq<Read>> := map[];
      ghost var rtt := readToTxIDs;
      PrunedNone(Fields(), AbortedMvccConflict);
      assert Hits(rtt, done) == {};
      var todo := conflicts.Keys;
      while todo != {}
        invariant todo <= conflicts.Keys && done == conflicts - todo && readToTxIDs == rtt
        invariant Fields() == Pruned(old(Fields()), Hits(rtt, done), AbortedMvccConflict)
        invariant AllRegistered(rtt, done)
        decreases todo
      {
        var ns :| ns in todo;
        todo := todo - {ns};
        assert conflicts - todo == done[ns := conflicts[ns]];
        HitMore(rtt, done, ns, conflicts[ns]);
        var registered := InvalidateTxsOnReads(ns, conflicts[ns]);
        if !registered {
          HitSubset(rtt, conflicts, ns);
          return false;
        }
        PrunedTwice(old(Fields()), Hits(rtt, done), Hits(rtt, map[ns := conflicts[ns]]), AbortedMvccConflict);
        done := done[ns := conflicts[ns]];
      }
      assert conflicts - {} == conflicts;
      ok := true;
    }

    /** populateVersionsAndCategorizeBlindWrites */
    method PopulateVersionsAndCategorizeBlindWrites(db: Database) returns (ghost seen: States)
      requires Compact(nonBlind) && Compact(blind) && Compact(newWrites)
      modifies this, db
      ensures Placed(seen, old(nonBlind), old(blind), old(newWrites), nonBlind, newWrites)
      ensures Compact(nonBlind) && Compact(newWrites)
      ensures Fields() == old(Fields()).(nonBlind := nonBlind, newWrites := newWrites, blind := map[])
      ensures old(Quiet(db.others)) ==> Quiet(db.others) && db.Contents() == old(db.Contents()) && seen == db.states
    {
      var grouped := GroupWritesByNamespace(blind);
      var state;
      state, seen := QueryVersions(db, grouped);
      forall id | id in blind ensures Found(state, blind[id], seen) {
        forall ns, w | In(blind[id], ns, w) ensures FoundAt(state, ns, w.key, seen) {
          assert w in At(blind, id, ns);
          assert SomeTxWrites(blind, ns, w);
          assert In(grouped, ns, w);
        }
      }
      nonBlind, newWrites := PlaceBlindWrites(nonBlind, blind, newWrites, state, seen);
      blind := map[];
    }

    method PrepareStatusForCommit() returns (statuses: seq<TxStatus>)
      requires ListedIds(Fields()) <= heights.Keys
      ensures StatusesOf(Fields(), statuses)
    {
      var txIDs := map id | id in nonBlind.Keys + blind.Keys + newWrites.Keys :: Committed;
      txIDs := txIDs + invalid;
      statuses := [];
      var todo := txIDs.Keys;
      while todo != {}
        invariant todo <= txIDs.Keys
        invariant DistinctIds(statuses)
        invariant forall s :: s in statuses ==>
                    s.id in txIDs && s.id !in todo && s == TxStatus(s.id, heights[s.id], txIDs[s.id])
        invariant forall id :: id in txIDs && id !in todo ==> exists s :: s in statuses && s.id == id
        decreases todo
      {
        var id :| id in todo;
        todo := todo - {id};
        var s := TxStatus(id, heights[id], txIDs[id]);
        ghost var was := statuses;
        statuses := statuses + [s];
        assert s in statuses;
        assert forall x :: x in was ==> x in statuses;
      }
      assert txIDs.Keys == ListedIds(Fields());
    }
  }

  lemma HitNext(rtt: map<CmpRead, seq<TxId>>, ns: Ns, rs: seq<Read>, i: nat)
    requires i < |rs|
    ensures var cr := NewCmpRead(ns, rs[i].key, rs[i].version);
            && (cr in rtt ==> Hits(rtt, map[ns := rs[..i + 1]]) == Hits(rtt, map[ns := rs[..i]]) + IdSet(rtt[cr]))
            && (AllRegistered(rtt, map[ns := rs[..i + 1]]) <==> AllRegistered(rtt, map[ns := rs[..i]]) && cr in rtt)
  {
    var a, b := map[ns := rs[..i]], map[ns := rs[..i + 1]];
    assert rs[..i + 1] == rs[..i] + [rs[i]];
    assert forall n, r :: Reports(b, n, r) <==> Reports(a, n, r) || (n == ns && r == rs[i]);
    var cr := NewCmpRead(ns, rs[i].key, rs[i].version);
    forall id ensures HitBy(rtt, b, id) <==> HitBy(rtt, a, id) || Registered(rtt, cr, id) {
      if HitBy(rtt, a, id) {
        var n, r :| Reports(a, n, r) && Registered(rtt, NewCmpRead(n, r.key, r.version), id);
        assert Reports(b, n, r);
      } else if Registered(rtt, cr, id) {
        assert Reports(b, ns, rs[i]);
      }
    }
    if AllRegistered(rtt, b) {
      assert Reports(b, ns, rs[i]);
    }
  }

  lemma HitMore(rtt: map<CmpRead, seq<TxId>>, done: map<Ns, seq<Read>>, ns: Ns, rs: seq<Read>)
    requires ns !in done
    ensures Hits(rtt, done[ns := rs]) == Hits(rtt, done) + Hits(rtt, map[ns := rs])
    ensures AllRegistered(rtt, done[ns := rs]) <==> AllRegistered(rtt, done) && AllRegistered(rtt, map[ns := rs])
  {
    var one, now := map[ns := rs], done[ns := rs];
    assert forall n, r :: Reports(now, n, r) <==> Reports(done, n, r) || Reports(one, n, r);
    forall id ensures HitBy(rtt, now, id) <==> HitBy(rtt, done, id) || HitBy(rtt, one, id) {
      if HitBy(rtt, done, id) {
        var n, r :| Reports(done, n, r) && Registered(rtt, NewCmpRead(n, r.key, r.version), id);
        assert Reports(now, n, r);
      } else if HitBy(rtt, one, id) {
        var n, r :| Reports(one, n, r) && Registered(rtt, NewCmpRead(n, r.key, r.version), id);
        assert Reports(now, n, r);
      }
    }
  }

  lemma HitSubset(rtt: map<CmpRead, seq<TxId>>, conflicts: map<Ns, seq<Read>>, ns: Ns)
    requires ns in conflicts && !AllRegistered(rtt, map[ns := conflicts[ns]])
    ensures !AllRegistered(rtt, conflicts)
  {
    var n, r :| Reports(map[ns := conflicts[ns]], n, r) && NewCmpRead(n, r.key, r.version) !in rtt;
    assert Reports(conflicts, n, r);
  }
}
