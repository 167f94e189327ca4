/** service/vc/database.go, with the SQL functions of utils/statedb/create_namespace_tmpl.sql and
    utils/statedb/init_database_tmpl.sql as contracts over maps. */
module VcDatabase {
  import opened Common
  import opened VcTypes
  import opened VcPrepare

  datatype TxStatus = TxStatus(id: TxId, height: Height, status: Status)

  /** What one commit attempt is asked to write. */
  datatype Attempt = Attempt(updateWrites: NsWrites, newWrites: NsWrites, batchStatus: seq<TxStatus>)

  datatype CommitResult =
    | Done
    | Duplicates(ids: seq<TxId>)
    | Conflicts(conflicts: map<Ns, seq<Read>>)

  // ---------------------------------------------------------------------
  // Specification of an attempt.

  predicate DistinctKeys(ws: seq<KeyWrite>) {
    forall i, j :: 0 <= i < j < |ws| ==> ws[i].key != ws[j].key
  }

  predicate Names(ws: seq<KeyWrite>, key: Key) {
    exists w :: w in ws && w.key == key
  }

  predicate NamesLoc(nw: NsWrites, loc: Loc) {
    loc.ns in nw && Names(nw[loc.ns], loc.key)
  }

  predicate DistinctIds(statuses: seq<TxStatus>) {
    forall i, j :: 0 <= i < j < |statuses| ==> statuses[i].id != statuses[j].id
  }

  /** The row of s would collide with a row of the table. */
  predicate Collides(rows: map<TxId, Row>, s: TxStatus) {
    s.status != RejectedDuplicateTxId && s.id in rows
  }

  ghost predicate RowsFor(before: map<TxId, Row>, statuses: seq<TxStatus>, after: map<TxId, Row>) {
    && (forall id :: id in after <==>
          id in before || exists s :: s in statuses && s.id == id && s.status != RejectedDuplicateTxId)
    && (forall id :: id in before ==> after[id] == before[id])
    && (forall s :: s in statuses && s.status != RejectedDuplicateTxId ==> after[s.id] == Row(s.status, s.height))
  }

  /** A namespace whose inserts name a key twice loses all of them: the violation rolls the insert
      back, and there is no existing key to report. */
  ghost predicate InsertedInto(before: States, nw: NsWrites, after: States) {
    && (forall ns, w :: ns in nw && DistinctKeys(nw[ns]) && w in nw[ns] ==>
          Loc(ns, w.key) in after && after[Loc(ns, w.key)] == Cell(w.value, 0))
    && (forall loc :: !(NamesLoc(nw, loc) && DistinctKeys(nw[loc.ns])) ==> SameAt(before, after, loc))
  }

  /** Only existing keys are updated; of several writes to one key, one of them is kept. */
  ghost predicate UpdatedInto(before: States, uw: NsWrites, after: States) {
    && after.Keys == before.Keys
    && (forall loc :: loc in before && !NamesLoc(uw, loc) ==> after[loc] == before[loc])
    && (forall loc :: loc in before && NamesLoc(uw, loc) ==>
          exists w :: w in uw[loc.ns] && w.key == loc.key && after[loc] == Cell(w.value, w.version))
  }

  ghost predicate Written(before: States, a: Attempt, after: States) {
    exists mid :: InsertedInto(before, a.newWrites, mid) && UpdatedInto(mid, a.updateWrites, after)
  }

  predicate InsertConflict(states: States, nw: NsWrites, ns: Ns, key: Key) {
    ns in nw && Names(nw[ns], key) && Loc(ns, key) in states
  }

  // ---------------------------------------------------------------------
  // The SQL functions, on the tables a database transaction works on.

  method InsertTxStatus(rows: map<TxId, Row>, statuses: seq<TxStatus>)
    returns (after: map<TxId, Row>, duplicates: seq<TxId>)
    requires DistinctIds(statuses)
    ensures forall id :: id in duplicates <==> exists s :: s in statuses && s.id == id && Collides(rows, s)
    ensures duplicates == [] ==> RowsFor(rows, statuses, after)
    ensures duplicates != [] ==> after == rows
  {
    after, duplicates := rows, [];
    for i := 0 to |statuses|
      invariant forall id :: id in duplicates <==> exists s :: s in statuses[..i] && s.id == id && Collides(rows, s)
      invariant duplicates == [] ==> RowsFor(rows, statuses[..i], after)
    {
      var s := statuses[i];
      assert statuses[..i + 1] == statuses[..i] + [s];
      if s.status != RejectedDuplicateTxId {
        if s.id in rows {
          duplicates := duplicates + [s.id];
        } else {
          after := after[s.id := Row(s.status, s.height)];
        }
      }
    }
    assert statuses[..|statuses|] == statuses;
    if duplicates != [] {
      after := rows;
    }
  }

  method InsertNs(states: States, ns: Ns, ws: seq<KeyWrite>) returns (after: States, violating: seq<Key>)
    ensures forall key :: key in violating <==> Names(ws, key) && Loc(ns, key) in states
    ensures violating == [] ==> InsertedInto(states, map[ns := ws], after)
    ensures forall loc: Loc :: loc.ns != ns ==> SameAt(states, after, loc)
  {
    violating := [];
    after := states;
    var clash := false;
    for i := 0 to |ws|
      invariant forall key :: key in violating <==> Names(ws[..i], key) && Loc(ns, key) in states
      invariant !clash && violating == [] ==> InsertedInto(states, map[ns := ws[..i]], after)
      invariant clash <==> !DistinctKeys(ws[..i])
      invariant forall loc: Loc :: loc.ns != ns ==> SameAt(states, after, loc)
    {
      ghost var before := after;
      assert ws[..i + 1] == ws[..i] + [ws[i]];
      DistinctSnoc(ws[..i], ws[i]);
      if exists j :: 0 <= j < i && ws[j].key == ws[i].key {
        clash := true;
      }
      if Loc(ns, ws[i].key) in states {
        violating := violating + [ws[i].key];
      }
      after := after[Loc(ns, ws[i].key) := Cell(ws[i].value, 0)];
      NamesSnoc(ws[..i], ws[i]);
      if !clash && violating == [] {
        InsertOne(states, ns, ws[..i], ws[i], before);
      }
    }
    assert ws[..|ws|] == ws;
    if clash || violating != [] {
      after := states;
    }
  }

  lemma DistinctSnoc(ws: seq<KeyWrite>, w: KeyWrite)
    ensures DistinctKeys(ws + [w]) <==> DistinctKeys(ws) && forall j :: 0 <= j < |ws| ==> ws[j].key != w.key
  {
    assert forall j :: 0 <= j < |ws| ==> (ws + [w])[j] == ws[j];
    assert (ws + [w])[|ws|] == w;
  }

  lemma NamesSnoc(ws: seq<KeyWrite>, w: KeyWrite)
    ensures forall key :: Names(ws + [w], key) <==> Names(ws, key) || key == w.key
  {
    forall key ensures Names(ws + [w], key) <==> Names(ws, key) || key == w.key {
      assert w in ws + [w];
      if Names(ws, key) {
        var x :| x in ws && x.key == key;
        assert x in ws + [w];
      }
    }
  }

  lemma InsertOne(states: States, ns: Ns, ws: seq<KeyWrite>, w: KeyWrite, mid: States)
    requires InsertedInto(states, map[ns := ws], mid) && DistinctKeys(ws + [w])
    ensures InsertedInto(states, map[ns := ws + [w]], mid[Loc(ns, w.key) := Cell(w.value, 0)])
  {
    var nw, nw' := map[ns := ws], map[ns := ws + [w]];
    var after := mid[Loc(ns, w.key) := Cell(w.value, 0)];
    assert DistinctKeys(ws) by {
      assert forall i :: 0 <= i < |ws| ==> (ws + [w])[i] == ws[i];
    }
    NamesSnoc(ws, w);
    assert ns in nw;
    forall x | x in ws + [w] ensures Loc(ns, x.key) in after && after[Loc(ns, x.key)] == Cell(x.value, 0) {
      var i :| 0 <= i < |ws + [w]| && (ws + [w])[i] == x;
      if i < |ws| {
        assert x in nw[ns];
        assert (ws + [w])[|ws|] == w;
      }
    }
    forall loc | !(NamesLoc(nw', loc) && DistinctKeys(nw'[loc.ns])) ensures SameAt(states, after, loc) {
      assert !(NamesLoc(nw, loc));
    }
  }

  method UpdateNs(states: States, ns: Ns, ws: seq<KeyWrite>) returns (after: States)
    ensures UpdatedInto(states, map[ns := ws], after)
  {
    after := states;
    for i := 0 to |ws|
      invariant UpdatedInto(states, map[ns := ws[..i]], after)
    {
      ghost var mid := after;
      assert ws[..i + 1] == ws[..i] + [ws[i]];
      NamesSnoc(ws[..i], ws[i]);
      if Loc(ns, ws[i].key) in after {
        after := after[Loc(ns, ws[i].key) := Cell(ws[i].value, ws[i].version)];
      }
      forall loc | loc in states && NamesLoc(map[ns := ws[..i + 1]], loc)
        ensures exists w :: w in ws[..i + 1] && w.key == loc.key && after[loc] == Cell(w.value, w.version)
      {
        if loc == Loc(ns, ws[i].key) {
          assert ws[i] in ws[..i + 1];
        } else {
          assert NamesLoc(map[ns := ws[..i]], loc);
          var w :| w in ws[..i] && w.key == loc.key && mid[loc] == Cell(w.value, w.version);
          assert w in ws[..i + 1];
        }
      }
    }
    assert ws[..|ws|] == ws;
  }

  // ---------------------------------------------------------------------
  // All namespaces of an attempt.

  lemma InsertNext(before: States, nw: NsWrites, mid: States, ns: Ns, ws: seq<KeyWrite>, after: States)
    requires InsertedInto(before, nw, mid) && ns !in nw && InsertedInto(mid, map[ns := ws], after)
    ensures InsertedInto(before, nw[ns := ws], after)
  {
    var one: NsWrites, nw': NsWrites := map[ns := ws], nw[ns := ws];
    assert ns in one;
    forall n, w | n in nw' && DistinctKeys(nw'[n]) && w in nw'[n]
      ensures Loc(n, w.key) in after && after[Loc(n, w.key)] == Cell(w.value, 0)
    {
      if n != ns {
        assert SameAt(mid, after, Loc(n, w.key));
      }
    }
    forall loc | !(NamesLoc(nw', loc) && DistinctKeys(nw'[loc.ns])) ensures SameAt(before, after, loc) {
      assert SameAt(before, mid, loc);
      assert SameAt(mid, after, loc);
    }
  }

  lemma UpdateNext(before: States, uw: NsWrites, mid: States, ns: Ns, ws: seq<KeyWrite>, after: States)
    requires UpdatedInto(before, uw, mid) && ns !in uw && UpdatedInto(mid, map[ns := ws], after)
    ensures UpdatedInto(before, uw[ns := ws], after)
  {
    var one: NsWrites, uw': NsWrites := map[ns := ws], uw[ns := ws];
    forall loc | loc in before && !NamesLoc(uw', loc) ensures after[loc] == before[loc] {
      assert !NamesLoc(one, loc) && !NamesLoc(uw, loc);
    }
    forall loc | loc in before && NamesLoc(uw', loc)
      ensures exists w :: w in uw'[loc.ns] && w.key == loc.key && after[loc] == Cell(w.value, w.version)
    {
      if loc.ns == ns {
        assert NamesLoc(one, loc);
        var w :| w in one[loc.ns] && w.key == loc.key && after[loc] == Cell(w.value, w.version);
        assert w in uw'[loc.ns];
      } else {
        assert NamesLoc(uw, loc) && !NamesLoc(one, loc);
        var w :| w in uw[loc.ns] && w.key == loc.key && mid[loc] == Cell(w.value, w.version);
        assert w in uw'[loc.ns];
      }
    }
  }

  lemma InsertEmpty(before: States, nw: NsWrites, after: States, ns: Ns)
    requires InsertedInto(before, nw, after) && ns !in nw
    ensures InsertedInto(before, nw[ns := []], after)
  {
    forall loc | !(NamesLoc(nw[ns := []], loc) && DistinctKeys(nw[ns := []][loc.ns]))
      ensures SameAt(before, after, loc)
    {
      assert !(NamesLoc(nw, loc) && DistinctKeys(nw[loc.ns]));
    }
  }

  predicate Reports(conflicts: map<Ns, seq<Read>>, ns: Ns, r: Read) {
    ns in conflicts && r in conflicts[ns]
  }

  /** conflicts names every insert of an existing key, as a read that expected no version. */
  ghost predicate ReportsAll(conflicts: map<Ns, seq<Read>>, states: States, nw: NsWrites) {
    && (forall ns :: ns in conflicts ==> conflicts[ns] != [])
    && (forall ns, r :: Reports(conflicts, ns, r) <==> r.version.None? && InsertConflict(states, nw, ns, r.key))
  }

  lemma ReportsNext(
    conflicts: map<Ns, seq<Read>>, states: States, nw: NsWrites, ns: Ns, ws: seq<KeyWrite>, rs: seq<Read>)
    requires ReportsAll(conflicts, states, nw) && ns !in nw
    requires forall r :: r in rs <==> r.version.None? && Names(ws, r.key) && Loc(ns, r.key) in states
    ensures ReportsAll(if rs == [] then conflicts else conflicts[ns := rs], states, nw[ns := ws])
  {
    var now := if rs == [] then conflicts else conflicts[ns := rs];
    forall n, r ensures Reports(now, n, r) <==> r.version.None? && InsertConflict(states, nw[ns := ws], n, r.key) {
      assert Reports(conflicts, n, r) <==> r.version.None? && InsertConflict(states, nw, n, r.key);
      if n == ns && ns in conflicts {
        assert Reports(conflicts, ns, conflicts[ns][0]);
      }
    }
  }

  function NilReads(keys: seq<Key>): (rs: seq<Read>)
    ensures |rs| == |keys|
    ensures forall r :: r in rs <==> r.version.None? && r.key in keys
  {
    if keys == [] then [] else
      assert keys == keys[..|keys| - 1] + [keys[|keys| - 1]];
      NilReads(keys[..|keys| - 1]) + [Read(keys[|keys| - 1], None)]
  }

  /** insertStates: every namespace is tried, so all colliding keys are reported together. */
  method InsertStates(states: States, nw: NsWrites) returns (after: States, conflicts: map<Ns, seq<Read>>)
    ensures ReportsAll(conflicts, states, nw)
    ensures conflicts == map[] ==> InsertedInto(states, nw, after)
  {
    after, conflicts := states, map[];
    ghost var done: NsWrites := map[];
    var todo := nw.Keys;
    while todo != {}
      invariant todo <= nw.Keys && done == nw - todo
      invariant ReportsAll(conflicts, states, done)
      invariant conflicts == map[] ==> InsertedInto(states, done, after)
      invariant forall loc: Loc :: loc.ns in todo ==> SameAt(states, after, loc)
      decreases todo
    {
      var ns :| ns in todo;
      ghost var was := after;
      assert forall key :: SameAt(states, after, Loc(ns, key));
      todo := todo - {ns};
      assert nw - todo == done[ns := nw[ns]];
      var violating := [];
      if nw[ns] != [] {
        after, violating := InsertNs(after, ns, nw[ns]);
      }
      ReportsNext(conflicts, states, done, ns, nw[ns], NilReads(violating));
      if conflicts == map[] && violating == [] {
        if nw[ns] == [] {
          InsertEmpty(states, done, after, ns);
        } else {
          InsertNext(states, done, was, ns, nw[ns], after);
        }
      }
      if |violating| > 0 {
        conflicts := conflicts[ns := NilReads(violating)];
      }
      done := done[ns := nw[ns]];
    }
    assert nw - {} == nw;
  }

  method UpdateStates(states: States, uw: NsWrites) returns (after: States)
    ensures UpdatedInto(states, uw, after)
  {
    after := states;
    ghost var done: NsWrites := map[];
    var todo := uw.Keys;
    while todo != {}
      invariant todo <= uw.Keys && done == uw - todo
      invariant UpdatedInto(states, done, after)
      decreases todo
    {
      var ns :| ns in todo;
      todo := todo - {ns};
      assert uw - todo == done[ns := uw[ns]];
      var next := UpdateNs(after, ns, uw[ns]);
      UpdateNext(states, done, after, ns, uw[ns], next);
      after, done := next, done[ns := uw[ns]];
    }
    assert uw - {} == uw;
  }

  // ---------------------------------------------------------------------

  /** Nobody else touches the tables. */
  predicate Quiet(others: seq<Option<Db>>) {
    forall i :: 0 <= i < |others| ==> others[i].None?
  }

  /** others is the rest of the world: what it leaves in the tables before each access to come, where it
      touches them. */
  class Database {
    var states: States
    var txStatus: map<TxId, Row>
    var others: seq<Option<Db>>

    ghost function Contents(): Db
      reads this
    {
      Db(states, txStatus)
    }

    constructor (db: Db, others: seq<Option<Db>>)
      ensures Contents() == db && this.others == others
    {
      states, txStatus, this.others := db.states, db.txStatus, others;
    }

    /** Taken before every access of the pipeline. */
    method LetOthersWrite()
      modifies this
      ensures Contents() == if old(others) != [] && old(others[0]).Some? then old(others[0]).value else old(Contents())
      ensures others == if old(others) == [] then [] else old(others)[1..]
      ensures old(Quiet(others)) ==> Quiet(others) && Contents() == old(Contents())
    {
      if others == [] { return; }
      if others[0].Some? {
        states, txStatus := others[0].value.states, others[0].value.txStatus;
      }
      others := others[1..];
    }

    method ValidateNamespaceReads(ns: Ns, rs: seq<Read>) returns (conflicts: seq<Read>)
      ensures forall r :: r in conflicts <==> r in rs && VersionAt(states, Loc(ns, r.key)) != r.version
    {
      conflicts := [];
      for i := 0 to |rs|
        invariant forall r :: r in conflicts <==> r in rs[..i] && VersionAt(states, Loc(ns, r.key)) != r.version
      {
        assert rs[..i + 1] == rs[..i] + [rs[i]];
        if VersionAt(states, Loc(ns, rs[i].key)) != rs[i].version {
          conflicts := conflicts + [rs[i]];
        }
      }
      assert rs[..|rs|] == rs;
    }

    method QueryVersionsIfPresent(ns: Ns, ws: seq<KeyWrite>) returns (found: map<Key, Version>)
      ensures forall key :: key in found <==> Names(ws, key) && Loc(ns, key) in states
      ensures forall key :: key in found ==> found[key] == states[Loc(ns, key)].version
    {
      found := map[];
      for i := 0 to |ws|
        invariant forall key :: key in found <==> Names(ws[..i], key) && Loc(ns, key) in states
        invariant forall key :: key in found ==> found[key] == states[Loc(ns, key)].version
      {
        assert ws[..i + 1] == ws[..i] + [ws[i]];
        NamesSnoc(ws[..i], ws[i]);
        if Loc(ns, ws[i].key) in states {
          found := found[ws[i].key := states[Loc(ns, ws[i].key)].version];
        }
      }
      assert ws[..|ws|] == ws;
    }

    /** One attempt in one database transaction: all of it, or a rejection that changes nothing. The
        IDs come first, so a repeated transaction is found before its writes are tried. */
    method Commit(a: Attempt) returns (r: CommitResult)
      requires DistinctIds(a.batchStatus)
      modifies this`states, this`txStatus
      ensures !r.Done? ==> Contents() == old(Contents())
      ensures r.Duplicates? <==> exists s :: s in a.batchStatus && Collides(old(txStatus), s)
      ensures r.Duplicates? ==> forall id :: id in r.ids <==>
                exists s :: s in a.batchStatus && s.id == id && Collides(old(txStatus), s)
      ensures r.Conflicts? <==> !(exists s :: s in a.batchStatus && Collides(old(txStatus), s)) &&
                                exists ns, key :: InsertConflict(old(states), a.newWrites, ns, key)
      ensures r.Conflicts? ==> ReportsAll(r.conflicts, old(states), a.newWrites)
      ensures r.Done? ==> RowsFor(old(txStatus), a.batchStatus, txStatus) && Written(old(states), a, states)
    {
      if (forall ns :: ns in a.updateWrites ==> a.updateWrites[ns] == []) &&
         (forall ns :: ns in a.newWrites ==> a.newWrites[ns] == []) && a.batchStatus == [] {
        NothingWritten(states, a);
        return Done;
      }
      var rows, duplicates := InsertTxStatus(txStatus, a.batchStatus);
      if |duplicates| > 0 {
        assert duplicates[0] in duplicates;
        return Duplicates(duplicates);
      }
      forall s | s in a.batchStatus ensures !Collides(txStatus, s) {
        assert s.id !in duplicates;
      }
      var mid, conflicts := InsertStates(states, a.newWrites);
      if conflicts != map[] {
        ghost var ns: Ns :| ns in conflicts;
        assert Reports(conflicts, ns, conflicts[ns][0]);
        return Conflicts(conflicts);
      }
      forall ns, key ensures !InsertConflict(states, a.newWrites, ns, key) {
        assert !Reports(conflicts, ns, Read(key, None));
      }
      var after := UpdateStates(mid, a.updateWrites);
      states, txStatus := after, rows;
      return Done;
    }
  }

  lemma NothingWritten(states: States, a: Attempt)
    requires forall ns :: ns in a.updateWrites ==> a.updateWrites[ns] == []
    requires forall ns :: ns in a.newWrites ==> a.newWrites[ns] == []
    ensures Written(states, a, states)
  {
    assert InsertedInto(states, a.newWrites, states);
    assert UpdatedInto(states, a.updateWrites, states);
  }
}
