/** The notifier's table of subscriptions. */
module Notifier {

  type TxId = string
  type Req = nat

  datatype Sub = Sub(id: TxId, req: Req)

  function SubsOf(req: Req, ids: seq<TxId>): (subs: set<Sub>)
    ensures forall s :: s in subs <==> s.req == req && s.id in ids
  {
    set id | id in ids :: Sub(id, req)
  }

  predicate NoRepeats<T(==)>(s: seq<T>) {
    forall i, j :: 0 <= i < j < |s| ==> s[i] != s[j]
  }

  /** The table lists exactly the subscriptions, under no ID an empty set of them. */
  ghost predicate Lists(table: map<TxId, set<Req>>, subs: set<Sub>) {
    && (forall s :: s in subs <==> s.id in table && s.req in table[s.id])
    && (forall id :: id in table ==> table[id] != {})
  }

  // ---------------------------------------------------------------------
  // How far a request gets.

  function IdSet(ids: seq<TxId>): set<TxId> {
    set id | id in ids
  }

  function Distinct(ids: seq<TxId>): nat {
    |IdSet(ids)|
  }

  ghost predicate NewRequest(subs: set<Sub>, req: Req) {
    forall s :: s in subs ==> s.req != req
  }

  /** With free slots, a new request for ids gets slots for its first n: they name at most that many IDs,
      and the next, if any, is one more. */
  predicate Admits(free: int, ids: seq<TxId>, n: nat) {
    && n <= |ids| && Distinct(ids[..n]) <= free
    && (n < |ids| ==> Distinct(ids[..n]) == free && ids[n] !in ids[..n])
  }

  predicate SplitBetween(ids: seq<TxId>, free: int, i: nat, j: nat) {
    i < j < |ids| && ids[i] == ids[j] && Distinct(ids[..i + 1]) <= free < Distinct(ids[..j])
  }

  /** The request names id once while there are slots and again after they ran out. */
  ghost predicate Splits(ids: seq<TxId>, free: int, id: TxId) {
    exists i: nat, j: nat :: SplitBetween(ids, free, i, j) && ids[i] == id
  }

  lemma AddOne<T>(s: set<T>, x: T)
    ensures |s + {x}| == |s| + if x in s then 0 else 1
  {
    if x in s { assert s + {x} == s; }
  }

  lemma DistinctSnoc(ids: seq<TxId>, n: nat)
    requires n < |ids|
    ensures Distinct(ids[..n + 1]) == Distinct(ids[..n]) + if ids[n] in ids[..n] then 0 else 1
  {
    assert ids[..n + 1] == ids[..n] + [ids[n]];
    assert IdSet(ids[..n + 1]) == IdSet(ids[..n]) + {ids[n]};
    AddOne(IdSet(ids[..n]), ids[n]);
  }

  lemma {:induction false} DistinctGrows(ids: seq<TxId>, a: nat, b: nat)
    requires a <= b <= |ids|
    ensures Distinct(ids[..a]) <= Distinct(ids[..b])
  {
    if a < b {
      DistinctGrows(ids, a, b - 1);
      DistinctSnoc(ids, b - 1);
    }
  }

  lemma SubsCountSnoc(req: Req, ids: seq<TxId>, n: nat)
    requires n < |ids|
    ensures |SubsOf(req, ids[..n + 1])| == |SubsOf(req, ids[..n])| + if ids[n] in ids[..n] then 0 else 1
  {
    SubsSnoc(req, ids, n);
    AddOne(SubsOf(req, ids[..n]), Sub(ids[n], req));
  }

  lemma {:induction false} SubsCount(req: Req, ids: seq<TxId>, n: nat)
    requires n <= |ids|
    ensures |SubsOf(req, ids[..n])| == Distinct(ids[..n])
  {
    if n == 0 {
      assert ids[..0] == [] && SubsOf(req, []) == {} && IdSet([]) == {};
    } else {
      SubsCount(req, ids, n - 1);
      SubsCountSnoc(req, ids, n - 1);
      DistinctSnoc(ids, n - 1);
    }
  }

  lemma NewSubs(subs: set<Sub>, req: Req, ids: seq<TxId>, n: nat)
    requires NewRequest(subs, req) && n <= |ids|
    ensures |subs + SubsOf(req, ids[..n])| == |subs| + Distinct(ids[..n])
  {
    SubsCount(req, ids, n);
    assert subs !! SubsOf(req, ids[..n]);
  }

  /** An ID of a new request is both accepted and rejected exactly when the request is split between two
      mentions of it: a matter of the IDs and the free slots alone. */
  lemma SplitsIff(free: int, ids: seq<TxId>, n: nat, id: TxId)
    requires Admits(free, ids, n)
    ensures id in ids[..n] && id in ids[n..] <==> Splits(ids, free, id)
  {
    if n < |ids| { DistinctSnoc(ids, n); }
    if id in ids[..n] && id in ids[n..] {
      var i :| 0 <= i < n && ids[i] == id;
      var j :| n <= j < |ids| && ids[j] == id;
      DistinctGrows(ids, i + 1, n);
      DistinctGrows(ids, n + 1, j);
      assert SplitBetween(ids, free, i, j);
    }
    if Splits(ids, free, id) {
      var i: nat, j: nat :| SplitBetween(ids, free, i, j) && ids[i] == id;
      if n <= i { DistinctGrows(ids, n + 1, i + 1); }
      if j <= n { DistinctGrows(ids, j, n); }
      assert ids[..n][i] == id && ids[n..][j - n] == id;
    }
  }

  /** So it never is when no ID is named twice, nor when there are slots for all. */
  lemma NeverSplits(free: int, ids: seq<TxId>, id: TxId)
    requires NoRepeats(ids) || Distinct(ids) <= free
    ensures !Splits(ids, free, id)
  {
    if !NoRepeats(ids) && Splits(ids, free, id) {
      var i: nat, j: nat :| SplitBetween(ids, free, i, j);
      assert ids[..|ids|] == ids;
      DistinctGrows(ids, j, |ids|);
    }
  }

  class Subscriptions {
    const max: nat
    var txIDToRequests: map<TxId, set<Req>>
    var availableSlots: int
    ghost var subs: set<Sub>

    /** Free slots and subscriptions make up the maximum. */
    ghost predicate Valid()
      reads this
    {
      Lists(txIDToRequests, subs) && availableSlots + |subs| == max && availableSlots >= 0
    }

    constructor (max: nat)
      ensures this.max == max && Valid() && subs == {}
    {
      this.max, txIDToRequests, availableSlots, subs := max, map[], max, {};
    }

    /** Accepts IDs as long as there are slots; from the first that gets none on, all are rejected, those
        accepted earlier in the request too. */
    method AddRequest(req: Req, txIDs: seq<TxId>) returns (rejected: seq<TxId>, ghost k: nat)
      requires Valid()
      modifies this
      ensures Valid()
      ensures k <= |txIDs| && rejected == txIDs[k..] && subs == old(subs) + SubsOf(req, txIDs[..k])
      ensures rejected != [] ==> availableSlots == 0 && Sub(rejected[0], req) !in subs
      ensures old(NewRequest(subs, req)) ==> Admits(old(availableSlots), txIDs, k)
      ensures old(NewRequest(subs, req)) ==>
                forall id :: Sub(id, req) in subs && id in rejected <==> Splits(txIDs, old(availableSlots), id)
    {
      rejected, k := AddIds(req, txIDs);
      if old(NewRequest(subs, req)) {
        NewSubs(old(subs), req, txIDs, k);
        forall id ensures Sub(id, req) in subs && id in rejected <==> Splits(txIDs, old(availableSlots), id) {
          SplitsIff(old(availableSlots), txIDs, k, id);
        }
      }
    }

    /** The loop of addRequest. */
    method AddIds(req: Req, txIDs: seq<TxId>) returns (rejected: seq<TxId>, ghost k: nat)
      requires Valid()
      modifies this
      ensures Valid()
      ensures k <= |txIDs| && rejected == txIDs[k..] && subs == old(subs) + SubsOf(req, txIDs[..k])
      ensures rejected != [] ==> availableSlots == 0 && Sub(rejected[0], req) !in subs
    {
      ghost var was := subs;
      k := 0;
      for i := 0 to |txIDs|
        invariant k == i && Valid()
        invariant subs == was + SubsOf(req, txIDs[..i])
      {
        NextSubs(was, req, txIDs, i);
        var full := Subscribe(txIDs[i], req);
        if full {
          return txIDs[i..], i;
        }
        k := k + 1;
      }
      rejected := [];
    }

    /** One ID of a request: already there, without a slot, or subscribed. */
    method Subscribe(id: TxId, req: Req) returns (full: bool)
      requires Valid()
      modifies this
      ensures Valid() && (full <==> Sub(id, req) !in old(subs) && old(availableSlots) == 0)
      ensures full ==> subs == old(subs) && availableSlots == 0
      ensures !full ==> subs == old(subs) + {Sub(id, req)}
    {
      assert Sub(id, req) in subs <==> id in txIDToRequests && req in txIDToRequests[id];
      full := false;
      if id in txIDToRequests && req in txIDToRequests[id] { return; }
      if availableSlots <= 0 { return true; }
      var requests := if id in txIDToRequests then txIDToRequests[id] else {};
      txIDToRequests := txIDToRequests[id := requests + {req}];
      availableSlots := availableSlots - 1;
      subs := subs + {Sub(id, req)};
    }

    /** Takes an ID out of the table; its subscribers are returned, and their slots with them. */
    method Fulfil(id: TxId) returns (events: seq<Sub>)
      requires Valid()
      modifies this
      ensures Valid() && NoRepeats(events)
      ensures forall s :: s in events <==> s in old(subs) && s.id == id
      ensures subs == set s | s in old(subs) && s.id != id
    {
      events := [];
      if id !in txIDToRequests { return; }
      var reqList := txIDToRequests[id];
      ghost var was := subs;
      subs := set s | s in was && s.id != id;
      txIDToRequests := txIDToRequests - {id};
      var todo := reqList;
      ghost var gone := was - subs;
      assert was == subs + gone;
      while todo != {}
        invariant todo <= reqList && NoRepeats(events)
        invariant forall s :: s in events <==> s.id == id && s.req in reqList && s.req !in todo
        invariant availableSlots == old(availableSlots) + |events|
        invariant txIDToRequests == old(txIDToRequests) - {id} && subs == (set s | s in was && s.id != id)
        decreases todo
      {
        var req :| req in todo;
        todo := todo - {req};
        events := events + [Sub(id, req)];
        availableSlots := availableSlots + 1;
      }
      assert forall s :: s in events <==> s in gone;
      SizeOfList(events, gone);
    }

    method RemoveAndEnqueueStatusEvents(ids: seq<TxId>) returns (events: seq<Sub>)
      requires Valid()
      modifies this
      ensures Valid() && NoRepeats(events)
      ensures forall s :: s in events <==> s in old(subs) && s.id in ids
      ensures subs == set s | s in old(subs) && s.id !in ids
    {
      events := [];
      assert subs == set s | s in subs && s.id !in ids[..0];
      for i := 0 to |ids|
        invariant Valid() && NoRepeats(events)
        invariant forall s :: s in events <==> s in old(subs) && s.id in ids[..i]
        invariant subs == set s | s in old(subs) && s.id !in ids[..i]
      {
        assert ids[..i + 1] == ids[..i] + [ids[i]];
        var more := Fulfil(ids[i]);
        assert forall s :: s in more ==> s !in events;
        events := events + more;
      }
      assert ids[..|ids|] == ids;
    }

    method Unsubscribe(id: TxId, req: Req)
      requires Valid() && Sub(id, req) in subs
      modifies this
      ensures Valid() && subs == old(subs) - {Sub(id, req)}
    {
      availableSlots := availableSlots + 1;
      subs := subs - {Sub(id, req)};
      if |txIDToRequests[id]| == 1 {
        assert txIDToRequests[id] == {req} by { SingletonOf(txIDToRequests[id], req); }
        txIDToRequests := txIDToRequests - {id};
      } else {
        assert txIDToRequests[id] - {req} != {};
        txIDToRequests := txIDToRequests[id := txIDToRequests[id] - {req}];
      }
    }

    method RemoveAndEnqueueTimeoutEvents(req: Req, ids: seq<TxId>) returns (events: seq<Sub>)
      requires Valid()
      modifies this
      ensures Valid() && NoRepeats(events)
      ensures forall s :: s in events <==> s in old(subs) && s.req == req && s.id in ids
      ensures subs == set s | s in old(subs) && !(s.req == req && s.id in ids)
    {
      events := [];
      for i := 0 to |ids|
        invariant Valid() && NoRepeats(events)
        invariant forall s :: s in events <==> s in old(subs) && s.req == req && s.id in ids[..i]
        invariant forall s :: s in subs <==> s in old(subs) && !(s.req == req && s.id in ids[..i])
      {
        assert ids[..i + 1] == ids[..i] + [ids[i]];
        var id := ids[i];
        assert Sub(id, req) in subs <==> id in txIDToRequests && req in txIDToRequests[id];
        if id !in txIDToRequests || req !in txIDToRequests[id] { continue; }
        Unsubscribe(id, req);
        events := events + [Sub(id, req)];
      }
      assert ids[..|ids|] == ids;
    }
  }

  lemma SubsSnoc(req: Req, ids: seq<TxId>, i: nat)
    requires i < |ids|
    ensures SubsOf(req, ids[..i + 1]) == SubsOf(req, ids[..i]) + {Sub(ids[i], req)}
  {
    assert ids[..i + 1] == ids[..i] + [ids[i]];
  }

  lemma NextSubs(was: set<Sub>, req: Req, ids: seq<TxId>, i: nat)
    requires i < |ids|
    ensures was + SubsOf(req, ids[..i + 1]) == was + SubsOf(req, ids[..i]) + {Sub(ids[i], req)}
  {
    SubsSnoc(req, ids, i);
  }

  lemma {:induction false} SizeOfList(s: seq<Sub>, all: set<Sub>)
    requires NoRepeats(s) && forall x :: x in s <==> x in all
    ensures |all| == |s|
  {
    if s == [] {
      assert all == {};
    } else {
      var front, last := s[..|s| - 1], s[|s| - 1];
      assert s == front + [last];
      SizeOfList(front, all - {last});
    }
  }

  lemma SingletonOf(s: set<Req>, x: Req)
    requires x in s && |s| == 1
    ensures s == {x}
  {
    assert |s - {x}| == 0;
  }

  // ---------------------------------------------------------------------
  // Whole runs.

  datatype Event =
    | Request(req: Req, ids: seq<TxId>)
    | Statuses(done: seq<TxId>)
    | Timeout(late: Req)

  /** A request is known by its identity, so no two events bring the same one. */
  predicate OwnRequests(events: seq<Event>) {
    forall i, j :: 0 <= i < j < |events| && events[i].Request? && events[j].Request? ==> events[i].req != events[j].req
  }

  /** What was accepted is subscribed or reported, once. */
  ghost predicate Accounted(accepted: set<Sub>, subs: set<Sub>, reports: seq<Sub>) {
    && NoRepeats(reports)
    && (forall s :: s in accepted <==> s in subs || s in reports)
    && (forall s :: s in reports ==> s !in subs)
  }

  lemma ReportedOnce(accepted: set<Sub>, subs: set<Sub>, reports: seq<Sub>, subs': set<Sub>, events: seq<Sub>)
    requires Accounted(accepted, subs, reports) && NoRepeats(events)
    requires forall s :: s in events ==> s in subs
    requires forall s :: s in subs' <==> s in subs && s !in events
    ensures Accounted(accepted, subs', reports + events)
  {
    var all := reports + events;
    forall i, j | 0 <= i < j < |all| ensures all[i] != all[j] {
      if i < |reports| <= j { assert all[i] in reports && events[j - |reports|] in events; }
    }
  }

  lemma RequestAccounted(accepted: set<Sub>, subs: set<Sub>, reports: seq<Sub>, req: Req, more: set<Sub>)
    requires Accounted(accepted, subs, reports) && NewRequest(accepted, req) && forall s :: s in more ==> s.req == req
    ensures Accounted(accepted + more, subs + more, reports)
  {
  }

  predicate Answers(e: Event, s: Sub) {
    (e.Statuses? && s.id in e.done) || (e.Timeout? && e.late == s.req)
  }

  /** Since s was requested nothing has answered it. */
  ghost predicate Waiting(events: seq<Event>, k: nat, s: Sub)
    requires k <= |events|
  {
    exists i :: 0 <= i < k && Asks(events[i], s) && forall j :: i < j < k ==> !Answers(events[j], s)
  }

  predicate Asks(e: Event, s: Sub) {
    e.Request? && e.req == s.req && s.id in e.ids
  }

  lemma StillWaiting(events: seq<Event>, k: nat, s: Sub)
    requires k < |events| && (Asks(events[k], s) || (Waiting(events, k, s) && !Answers(events[k], s)))
    ensures Waiting(events, k + 1, s)
  {
    if Asks(events[k], s) {
    } else {
      var i :| 0 <= i < k && Asks(events[i], s) && forall j :: i < j < k ==> !Answers(events[j], s);
      assert forall j :: i < j < k + 1 ==> !Answers(events[j], s);
    }
  }

  /** What an event does to the subscriptions. A request for too many IDs is rejected whole. */
  ghost predicate Moves(max: nat, maxPerRequest: nat, subs: set<Sub>, e: Event, subs': set<Sub>) {
    match e
    case Request(req, ids) =>
      if |ids| > maxPerRequest then subs' == subs
      else exists n: nat :: Admits(max - |subs|, ids, n) && subs' == subs + SubsOf(req, ids[..n])
    case Statuses(done) => subs' == set s | s in subs && s.id !in done
    case Timeout(late) => subs' == set s | s in subs && s.req != late
  }

  /** tables are the subscriptions before each event, and after the last. */
  ghost predicate Traced(max: nat, maxPerRequest: nat, events: seq<Event>, tables: seq<set<Sub>>) {
    && 0 < |tables| <= |events| + 1 && tables[0] == {}
    && forall k :: 0 <= k < |tables| - 1 ==> Moves(max, maxPerRequest, tables[k], events[k], tables[k + 1])
  }

  ghost predicate HeldIn(tables: seq<set<Sub>>, n: nat, s: Sub) {
    exists i :: 0 <= i < n && i < |tables| && s in tables[i]
  }

  /** Accepted is what was ever subscribed. */
  ghost predicate EverHeld(accepted: set<Sub>, tables: seq<set<Sub>>) {
    forall s :: s in accepted <==> HeldIn(tables, |tables|, s)
  }

  /** By the time of table k, n reports went out: exactly for what was subscribed and is no more. */
  ghost predicate ReportedAt(reports: seq<Sub>, n: nat, tables: seq<set<Sub>>, k: nat)
    requires k < |tables|
  {
    n <= |reports| && forall s :: s in reports[..n] <==> HeldIn(tables, k + 1, s) && s !in tables[k]
  }

  /** sent[k] is how many of the reports went out by table k. */
  ghost predicate Timely(reports: seq<Sub>, sent: seq<nat>, tables: seq<set<Sub>>) {
    |sent| == |tables| && forall k :: 0 <= k < |tables| ==> ReportedAt(reports, sent[k], tables, k)
  }

  lemma HeldNext(tables: seq<set<Sub>>, next: set<Sub>, n: nat, s: Sub)
    ensures n <= |tables| ==> (HeldIn(tables + [next], n, s) <==> HeldIn(tables, n, s))
    ensures HeldIn(tables + [next], |tables| + 1, s) <==> HeldIn(tables, |tables|, s) || s in next
  {
    var longer := tables + [next];
    assert forall i :: 0 <= i < |tables| ==> longer[i] == tables[i];
    assert longer[|tables|] == next;
  }

  lemma EverHeldNext(accepted: set<Sub>, accepted': set<Sub>, tables: seq<set<Sub>>, next: set<Sub>)
    requires EverHeld(accepted, tables) && forall s :: s in accepted' <==> s in accepted || s in next
    ensures EverHeld(accepted', tables + [next])
  {
    forall s ensures s in accepted' <==> HeldIn(tables + [next], |tables| + 1, s) {
      HeldNext(tables, next, |tables| + 1, s);
    }
  }

  lemma TimelyNext(reports: seq<Sub>, more: seq<Sub>, sent: seq<nat>, accepted: set<Sub>, tables: seq<set<Sub>>,
                   next: set<Sub>)
    requires Timely(reports, sent, tables) && Accounted(accepted, next, reports + more)
    requires EverHeld(accepted, tables + [next])
    ensures Timely(reports + more, sent + [|reports + more|], tables + [next])
  {
    var all, counts, longer := reports + more, sent + [|reports + more|], tables + [next];
    forall k | 0 <= k < |longer| ensures ReportedAt(all, counts[k], longer, k) {
      if k < |tables| {
        assert ReportedAt(reports, sent[k], tables, k) && all[..sent[k]] == reports[..sent[k]];
        var n := k + 1;
        forall s ensures HeldIn(longer, n, s) <==> HeldIn(tables, n, s) { HeldNext(tables, next, n, s); }
      } else {
        assert all[..|all|] == all;
      }
    }
  }

  ghost predicate History(accepted: set<Sub>, reports: seq<Sub>, tables: seq<set<Sub>>, sent: seq<nat>) {
    && EverHeld(accepted, tables) && Timely(reports, sent, tables)
    && tables != [] && sent[|sent| - 1] == |reports|
  }

  lemma HistoryNext(accepted: set<Sub>, accepted': set<Sub>, reports: seq<Sub>, more: seq<Sub>, tables: seq<set<Sub>>,
                    sent: seq<nat>, next: set<Sub>)
    requires History(accepted, reports, tables, sent) && Accounted(accepted', next, reports + more)
    requires forall s :: s in accepted' <==> s in accepted || s in next
    ensures History(accepted', reports + more, tables + [next], sent + [|reports + more|])
  {
    EverHeldNext(accepted, accepted', tables, next);
    TimelyNext(reports, more, sent, accepted', tables, next);
  }

  /** With these subscriptions, e is the request of s and is split between two mentions of its ID. */
  ghost predicate SplitAt(max: nat, maxPerRequest: nat, e: Event, subs: set<Sub>, s: Sub) {
    e.Request? && e.req == s.req && |e.ids| <= maxPerRequest && Splits(e.ids, max - |subs|, s.id)
  }

  ghost predicate SplitBefore(max: nat, maxPerRequest: nat, events: seq<Event>, tables: seq<set<Sub>>, k: nat, s: Sub)
    requires k <= |events| && k <= |tables|
  {
    exists i :: 0 <= i < k && SplitAt(max, maxPerRequest, events[i], tables[i], s)
  }

  ghost predicate AskedBefore(events: seq<Event>, k: nat, s: Sub)
    requires k <= |events|
  {
    exists i :: 0 <= i < k && Asks(events[i], s)
  }

  /** Each ID named by one of the first k events is accepted or rejected, and both exactly where a request
      was split. */
  ghost predicate Answered(max: nat, maxPerRequest: nat, events: seq<Event>, tables: seq<set<Sub>>, k: nat,
                           accepted: set<Sub>, rejected: set<Sub>)
    requires k <= |events| && k <= |tables|
  {
    && (forall s :: s in accepted || s in rejected <==> AskedBefore(events, k, s))
    && (forall s :: s in accepted && s in rejected <==> SplitBefore(max, maxPerRequest, events, tables, k, s))
  }

  lemma BeforeNext(max: nat, maxPerRequest: nat, events: seq<Event>, tables: seq<set<Sub>>, k: nat, next: set<Sub>,
                   s: Sub)
    requires k < |events| && k < |tables|
    ensures AskedBefore(events, k + 1, s) <==> AskedBefore(events, k, s) || Asks(events[k], s)
    ensures SplitBefore(max, maxPerRequest, events, tables + [next], k + 1, s) <==>
            SplitBefore(max, maxPerRequest, events, tables, k, s) ||
              SplitAt(max, maxPerRequest, events[k], tables[k], s)
  {
    var longer := tables + [next];
    assert forall i :: 0 <= i <= k ==> longer[i] == tables[i];
    if SplitAt(max, maxPerRequest, events[k], tables[k], s) {
      assert SplitAt(max, maxPerRequest, events[k], longer[k], s);
    }
    if SplitBefore(max, maxPerRequest, events, tables, k, s) {
      var i :| 0 <= i < k && SplitAt(max, maxPerRequest, events[i], tables[i], s);
      assert SplitAt(max, maxPerRequest, events[i], longer[i], s);
    }
  }

  /** A new request adds what it asks for, part to the accepted and part to the rejected. */
  lemma RequestAnswered(max: nat, maxPerRequest: nat, events: seq<Event>, tables: seq<set<Sub>>, k: nat, next: set<Sub>,
                        accepted: set<Sub>, rejected: set<Sub>, more: set<Sub>, refused: set<Sub>)
    requires k < |events| && k < |tables| && Answered(max, maxPerRequest, events, tables, k, accepted, rejected)
    requires events[k].Request? && NewRequest(accepted + rejected, events[k].req)
    requires forall s :: s in more || s in refused <==> Asks(events[k], s)
    requires forall s :: s in more && s in refused <==> SplitAt(max, maxPerRequest, events[k], tables[k], s)
    ensures Answered(max, maxPerRequest, events, tables + [next], k + 1, accepted + more, rejected + refused)
  {
    forall s ensures
      && (s in accepted + more || s in rejected + refused <==> AskedBefore(events, k + 1, s))
      && (s in accepted + more && s in rejected + refused <==>
            SplitBefore(max, maxPerRequest, events, tables + [next], k + 1, s))
    {
      BeforeNext(max, maxPerRequest, events, tables, k, next, s);
    }
  }

  lemma OthersAnswered(max: nat, maxPerRequest: nat, events: seq<Event>, tables: seq<set<Sub>>, k: nat, next: set<Sub>,
                       accepted: set<Sub>, rejected: set<Sub>)
    requires k < |events| && k < |tables| && Answered(max, maxPerRequest, events, tables, k, accepted, rejected)
    requires !events[k].Request?
    ensures Answered(max, maxPerRequest, events, tables + [next], k + 1, accepted, rejected)
  {
    forall s ensures
      && (s in accepted || s in rejected <==> AskedBefore(events, k + 1, s))
      && (s in accepted && s in rejected <==> SplitBefore(max, maxPerRequest, events, tables + [next], k + 1, s))
    {
      BeforeNext(max, maxPerRequest, events, tables, k, next, s);
    }
  }

  lemma TracedNext(max: nat, maxPerRequest: nat, events: seq<Event>, tables: seq<set<Sub>>, k: nat, next: set<Sub>)
    requires Traced(max, maxPerRequest, events, tables) && |tables| == k + 1 && k < |events|
    requires Moves(max, maxPerRequest, tables[k], events[k], next)
    ensures Traced(max, maxPerRequest, events, tables + [next])
  {
  }

  /** A request that gets slots for its first k IDs, as an event. */
  lemma AdmittedMoves(max: nat, maxPerRequest: nat, subs: set<Sub>, req: Req, ids: seq<TxId>, k: nat)
    requires Admits(max - |subs|, ids, k) && |ids| <= maxPerRequest
    ensures Moves(max, maxPerRequest, subs, Request(req, ids), subs + SubsOf(req, ids[..k]))
  {
  }

  lemma AdmittedParts(max: nat, maxPerRequest: nat, subs: set<Sub>, req: Req, ids: seq<TxId>, k: nat, s: Sub)
    requires Admits(max - |subs|, ids, k) && |ids| <= maxPerRequest
    ensures s in SubsOf(req, ids[..k]) || s in SubsOf(req, ids[k..]) <==> Asks(Request(req, ids), s)
    ensures s in SubsOf(req, ids[..k]) && s in SubsOf(req, ids[k..]) <==>
            SplitAt(max, maxPerRequest, Request(req, ids), subs, s)
  {
    assert ids == ids[..k] + ids[k..];
    SplitsIff(max - |subs|, ids, k, s.id);
  }

  method TakeRequest(m: Subscriptions, maxPerRequest: nat, req: Req, ids: seq<TxId>)
    returns (ghost more: set<Sub>, ghost refused: set<Sub>)
    requires m.Valid() && NewRequest(m.subs, req)
    modifies m
    ensures m.Valid() && m.subs == old(m.subs) + more
    ensures Moves(m.max, maxPerRequest, old(m.subs), Request(req, ids), m.subs)
    ensures forall s :: s in more || s in refused <==> Asks(Request(req, ids), s)
    ensures forall s :: s in more && s in refused <==> SplitAt(m.max, maxPerRequest, Request(req, ids), old(m.subs), s)
  {
    if |ids| > maxPerRequest {
      more, refused := {}, SubsOf(req, ids);
    } else {
      ghost var subs, k := m.subs, 0;
      var rejected;
      rejected, k := m.AddRequest(req, ids);
      more, refused := SubsOf(req, ids[..k]), SubsOf(req, rejected);
      AdmittedMoves(m.max, maxPerRequest, subs, req, ids, k);
      forall s ensures
        && (s in more || s in refused <==> Asks(Request(req, ids), s))
        && (s in more && s in refused <==> SplitAt(m.max, maxPerRequest, Request(req, ids), subs, s))
      {
        AdmittedParts(m.max, maxPerRequest, subs, req, ids, k, s);
      }
    }
  }

  /** A status or a timeout; requests holds what the request that times out asked for. */
  method TakeAnswer(m: Subscriptions, maxPerRequest: nat, requests: map<Req, seq<TxId>>, e: Event)
    returns (more: seq<Sub>)
    requires m.Valid() && !e.Request? && forall s :: s in m.subs ==> s.req in requests && s.id in requests[s.req]
    modifies m
    ensures m.Valid() && NoRepeats(more) && Moves(m.max, maxPerRequest, old(m.subs), e, m.subs)
    ensures forall s :: s in more <==> s in old(m.subs) && Answers(e, s)
    ensures forall s :: s in m.subs <==> s in old(m.subs) && !Answers(e, s)
  {
    if e.Statuses? {
      more := m.RemoveAndEnqueueStatusEvents(e.done);
    } else if e.late in requests {
      more := m.RemoveAndEnqueueTimeoutEvents(e.late, requests[e.late]);
    } else {
      more := [];
    }
  }

  /** requests are those of the first k events, with what they asked for. */
  ghost predicate Known(events: seq<Event>, k: nat, requests: map<Req, seq<TxId>>) {
    k <= |events| && forall q :: q in requests ==> exists i :: 0 <= i < k && events[i].Request? && events[i].req == q
  }

  ghost predicate AllWaiting(events: seq<Event>, k: nat, requests: map<Req, seq<TxId>>, subs: set<Sub>) {
    k <= |events| && forall s :: s in subs ==> s.req in requests && s.id in requests[s.req] && Waiting(events, k, s)
  }

  /** What holds before event k of who is subscribed, reported and rejected. */
  ghost predicate Kept(events: seq<Event>, k: nat, requests: map<Req, seq<TxId>>, subs: set<Sub>, reports: seq<Sub>,
                       accepted: set<Sub>, rejected: set<Sub>) {
    && Known(events, k, requests) && AllWaiting(events, k, requests, subs) && Accounted(accepted, subs, reports)
    && (forall s :: s in accepted || s in rejected ==> s.req in requests)
  }

  /** And of the way there. */
  ghost predicate Reached(max: nat, maxPerRequest: nat, events: seq<Event>, k: nat, subs: set<Sub>,
                          accepted: set<Sub>, rejected: set<Sub>, tables: seq<set<Sub>>) {
    && k <= |events| && Traced(max, maxPerRequest, events, tables) && |tables| == k + 1 && tables[k] == subs
    && Answered(max, maxPerRequest, events, tables, k, accepted, rejected)
  }

  lemma KnownNext(events: seq<Event>, k: nat, requests: map<Req, seq<TxId>>)
    requires Known(events, k, requests) && k < |events|
    ensures Known(events, k + 1, requests)
    ensures events[k].Request? ==> Known(events, k + 1, requests[events[k].req := events[k].ids])
  {
  }

  lemma WaitingNext(events: seq<Event>, k: nat, requests: map<Req, seq<TxId>>, subs: set<Sub>,
                    requests': map<Req, seq<TxId>>, subs': set<Sub>)
    requires AllWaiting(events, k, requests, subs) && k < |events|
    requires forall s :: s in subs' ==> if s in subs then !Answers(events[k], s) else Asks(events[k], s)
    requires requests' == if events[k].Request? then requests[events[k].req := events[k].ids] else requests
    requires events[k].Request? ==> events[k].req !in requests
    ensures AllWaiting(events, k + 1, requests', subs')
  {
    forall s | s in subs' ensures s.req in requests' && s.id in requests'[s.req] && Waiting(events, k + 1, s) {
      StillWaiting(events, k, s);
    }
  }

  lemma RequestKept(events: seq<Event>, k: nat, requests: map<Req, seq<TxId>>, subs: set<Sub>, reports: seq<Sub>,
                    accepted: set<Sub>, rejected: set<Sub>, more: set<Sub>, refused: set<Sub>)
    requires Kept(events, k, requests, subs, reports, accepted, rejected)
    requires k < |events| && events[k].Request? && events[k].req !in requests
    requires forall s :: s in more || s in refused ==> Asks(events[k], s)
    ensures Kept(events, k + 1, requests[events[k].req := events[k].ids], subs + more, reports, accepted + more,
                 rejected + refused)
  {
    KnownNext(events, k, requests);
    WaitingNext(events, k, requests, subs, requests[events[k].req := events[k].ids], subs + more);
    RequestAccounted(accepted, subs, reports, events[k].req, more);
  }

  lemma RequestReached(max: nat, maxPerRequest: nat, events: seq<Event>, k: nat, subs: set<Sub>, accepted: set<Sub>,
                       rejected: set<Sub>, tables: seq<set<Sub>>, more: set<Sub>, refused: set<Sub>)
    requires Reached(max, maxPerRequest, events, k, subs, accepted, rejected, tables)
    requires k < |events| && events[k].Request? && NewRequest(accepted + rejected, events[k].req)
    requires Moves(max, maxPerRequest, subs, events[k], subs + more)
    requires forall s :: s in more || s in refused <==> Asks(events[k], s)
    requires forall s :: s in more && s in refused <==> SplitAt(max, maxPerRequest, events[k], subs, s)
    ensures Reached(max, maxPerRequest, events, k + 1, subs + more, accepted + more, rejected + refused,
                    tables + [subs + more])
  {
    RequestAnswered(max, maxPerRequest, events, tables, k, subs + more, accepted, rejected, more, refused);
    TracedNext(max, maxPerRequest, events, tables, k, subs + more);
  }

  lemma AnswerKept(events: seq<Event>, k: nat, requests: map<Req, seq<TxId>>, subs: set<Sub>, reports: seq<Sub>,
                   accepted: set<Sub>, rejected: set<Sub>, subs': set<Sub>, more: seq<Sub>)
    requires Kept(events, k, requests, subs, reports, accepted, rejected)
    requires k < |events| && !events[k].Request? && NoRepeats(more)
    requires forall s :: s in more <==> s in subs && Answers(events[k], s)
    requires forall s :: s in subs' <==> s in subs && !Answers(events[k], s)
    ensures Kept(events, k + 1, requests, subs', reports + more, accepted, rejected)
  {
    KnownNext(events, k, requests);
    WaitingNext(events, k, requests, subs, requests, subs');
    ReportedOnce(accepted, subs, reports, subs', more);
  }

  lemma AnswerReached(max: nat, maxPerRequest: nat, events: seq<Event>, k: nat, subs: set<Sub>, accepted: set<Sub>,
                      rejected: set<Sub>, tables: seq<set<Sub>>, subs': set<Sub>)
    requires Reached(max, maxPerRequest, events, k, subs, accepted, rejected, tables)
    requires k < |events| && !events[k].Request? && Moves(max, maxPerRequest, subs, events[k], subs')
    ensures Reached(max, maxPerRequest, events, k + 1, subs', accepted, rejected, tables + [subs'])
  {
    OthersAnswered(max, maxPerRequest, events, tables, k, subs', accepted, rejected);
    TracedNext(max, maxPerRequest, events, tables, k, subs');
  }

  lemma StartsKept(max: nat, maxPerRequest: nat, events: seq<Event>)
    ensures Kept(events, 0, map[], {}, [], {}, {})
    ensures Reached(max, maxPerRequest, events, 0, {}, {}, {}, [{}])
    ensures History({}, [], [{}], [0])
  {
  }

  /** The request of event k is new to everyone. */
  lemma RequestIsNew(events: seq<Event>, k: nat, requests: map<Req, seq<TxId>>, subs: set<Sub>, reports: seq<Sub>,
                     accepted: set<Sub>, rejected: set<Sub>)
    requires Kept(events, k, requests, subs, reports, accepted, rejected)
    requires OwnRequests(events) && k < |events| && events[k].Request?
    ensures events[k].req !in requests && NewRequest(subs, events[k].req)
    ensures NewRequest(accepted + rejected, events[k].req)
  {
  }

  lemma RequestHistory(accepted: set<Sub>, reports: seq<Sub>, tables: seq<set<Sub>>, sent: seq<nat>, subs: set<Sub>,
                       more: set<Sub>)
    requires History(accepted, reports, tables, sent) && Accounted(accepted, subs, reports)
    requires Accounted(accepted + more, subs + more, reports)
    ensures History(accepted + more, reports, tables + [subs + more], sent + [|reports|])
  {
    assert reports + [] == reports;
    HistoryNext(accepted, accepted + more, reports, [], tables, sent, subs + more);
  }

  /** All of it: what holds before event k and how it came about. */
  ghost predicate Underway(max: nat, maxPerRequest: nat, events: seq<Event>, k: nat, requests: map<Req, seq<TxId>>,
                           subs: set<Sub>, reports: seq<Sub>, accepted: set<Sub>, rejected: set<Sub>,
                           tables: seq<set<Sub>>, sent: seq<nat>) {
    && Kept(events, k, requests, subs, reports, accepted, rejected)
    && Reached(max, maxPerRequest, events, k, subs, accepted, rejected, tables)
    && History(accepted, reports, tables, sent)
  }

  method OnRequest(m: Subscriptions, maxPerRequest: nat, events: seq<Event>, k: nat, requests: map<Req, seq<TxId>>,
                   ghost reports: seq<Sub>, ghost accepted: set<Sub>, ghost rejected: set<Sub>,
                   ghost tables: seq<set<Sub>>, ghost sent: seq<nat>)
    returns (ghost accepted': set<Sub>, ghost rejected': set<Sub>)
    requires m.Valid() && OwnRequests(events) && k < |events| && events[k].Request?
    requires Underway(m.max, maxPerRequest, events, k, requests, m.subs, reports, accepted, rejected, tables, sent)
    modifies m
    ensures m.Valid()
    ensures Underway(m.max, maxPerRequest, events, k + 1, requests[events[k].req := events[k].ids], m.subs, reports,
                     accepted', rejected', tables + [m.subs], sent + [|reports|])
  {
    ghost var subs := m.subs;
    RequestIsNew(events, k, requests, subs, reports, accepted, rejected);
    ghost var more, refused := TakeRequest(m, maxPerRequest, events[k].req, events[k].ids);
    RequestKept(events, k, requests, subs, reports, accepted, rejected, more, refused);
    RequestReached(m.max, maxPerRequest, events, k, subs, accepted, rejected, tables, more, refused);
    RequestHistory(accepted, reports, tables, sent, subs, more);
    accepted', rejected' := accepted + more, rejected + refused;
  }

  method OnAnswer(m: Subscriptions, maxPerRequest: nat, events: seq<Event>, k: nat, requests: map<Req, seq<TxId>>,
                  ghost reports: seq<Sub>, ghost accepted: set<Sub>, ghost rejected: set<Sub>,
                  ghost tables: seq<set<Sub>>, ghost sent: seq<nat>)
    returns (more: seq<Sub>)
    requires m.Valid() && k < |events| && !events[k].Request?
    requires Underway(m.max, maxPerRequest, events, k, requests, m.subs, reports, accepted, rejected, tables, sent)
    modifies m
    ensures m.Valid()
    ensures Underway(m.max, maxPerRequest, events, k + 1, requests, m.subs, reports + more, accepted, rejected,
                     tables + [m.subs], sent + [|reports + more|])
  {
    ghost var subs := m.subs;
    more := TakeAnswer(m, maxPerRequest, requests, events[k]);
    AnswerKept(events, k, requests, subs, reports, accepted, rejected, m.subs, more);
    AnswerReached(m.max, maxPerRequest, events, k, subs, accepted, rejected, tables, m.subs);
    HistoryNext(accepted, accepted, reports, more, tables, sent, m.subs);
  }

  method OnEvent(m: Subscriptions, maxPerRequest: nat, events: seq<Event>, k: nat, requests: map<Req, seq<TxId>>,
                 ghost reports: seq<Sub>, ghost accepted: set<Sub>, ghost rejected: set<Sub>,
                 ghost tables: seq<set<Sub>>, ghost sent: seq<nat>)
    returns (requests': map<Req, seq<TxId>>, more: seq<Sub>, ghost accepted': set<Sub>, ghost rejected': set<Sub>)
    requires m.Valid() && OwnRequests(events) && k < |events|
    requires Underway(m.max, maxPerRequest, events, k, requests, m.subs, reports, accepted, rejected, tables, sent)
    modifies m
    ensures m.Valid()
    ensures Underway(m.max, maxPerRequest, events, k + 1, requests', m.subs, reports + more, accepted', rejected',
                     tables + [m.subs], sent + [|reports + more|])
  {
    if events[k].Request? {
      accepted', rejected' :=
        OnRequest(m, maxPerRequest, events, k, requests, reports, accepted, rejected, tables, sent);
      requests', more := requests[events[k].req := events[k].ids], [];
      assert reports + more == reports;
    } else {
      more := OnAnswer(m, maxPerRequest, events, k, requests, reports, accepted, rejected, tables, sent);
      requests', accepted', rejected' := requests, accepted, rejected;
    }
  }

  /** Any sequence of requests, statuses and timeouts, whatever IDs they name. What was ever subscribed is
      accepted, and is subscribed or reported, once; at any time it has been reported exactly when it is
      subscribed no more, which a status or timeout for it brings about; slots are neither lost nor made; and an
      ID that is rejected was not accepted, unless its request was split. */
  method RunNotifier(max: nat, maxPerRequest: nat, events: seq<Event>)
    returns (m: Subscriptions, reports: seq<Sub>, ghost accepted: set<Sub>, ghost rejected: set<Sub>,
             ghost tables: seq<set<Sub>>, ghost sent: seq<nat>)
    requires OwnRequests(events)
    ensures fresh(m) && m.max == max && m.Valid()
    ensures Traced(max, maxPerRequest, events, tables) && |tables| == |events| + 1 && tables[|events|] == m.subs
    ensures EverHeld(accepted, tables) && Accounted(accepted, m.subs, reports) && Timely(reports, sent, tables)
    ensures sent[|events|] == |reports|
    ensures forall s :: s in m.subs ==> Waiting(events, |events|, s)
    ensures Answered(max, maxPerRequest, events, tables, |events|, accepted, rejected)
  {
    m := new Subscriptions(max);
    reports, accepted, rejected, tables, sent := [], {}, {}, [{}], [0];
    var requests: map<Req, seq<TxId>> := map[];
    StartsKept(max, maxPerRequest, events);
    for k := 0 to |events|
      invariant fresh(m) && m.max == max && m.Valid()
      invariant Underway(max, maxPerRequest, events, k, requests, m.subs, reports, accepted, rejected, tables, sent)
    {
      var more;
      requests, more, accepted, rejected :=
        OnEvent(m, maxPerRequest, events, k, requests, reports, accepted, rejected, tables, sent);
      reports := reports + more;
      tables, sent := tables + [m.subs], sent + [|reports|];
    }
  }

  /** With one slot, the second mention of "a" is rejected while the first is subscribed, and reported. */
  method RejectedYetReported() returns (rejected: seq<TxId>, reports: seq<Sub>)
    ensures rejected == ["b", "a"] && reports == [Sub("a", 0)]
  {
    var m := new Subscriptions(1);
    var ids := ["a", "b", "a"];
    ghost var k;
    rejected, k := m.AddRequest(0, ids);
    OneSlot(k);
    reports := m.RemoveAndEnqueueStatusEvents(["a"]);
    OnlyOne(reports, Sub("a", 0));
  }

  lemma OnlyOne(s: seq<Sub>, x: Sub)
    requires NoRepeats(s) && forall y :: y in s <==> y == x
    ensures s == [x]
  {
    SizeOfList(s, {x});
    assert s[0] in s;
  }

  lemma OneSlot(k: nat)
    requires Admits(1, ["a", "b", "a"], k)
    ensures k == 1
  {
    var ids := ["a", "b", "a"];
    assert ids[..0] == [] && ids[..1] == ["a"] && ids[..2] == ["a", "b"] && ids[..3] == ids;
    DistinctSnoc(ids, 0);
    DistinctSnoc(ids, 1);
    DistinctSnoc(ids, 2);
  }
}
