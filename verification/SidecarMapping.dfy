/** The transaction IDs in flight, as the relay's first goroutine keeps them. */
module TxIdDedups {

  type TxId = string

  datatype DedupBlock = DedupBlock(blockNumber: nat, txIDs: seq<TxId>)

  predicate NoRepeats(s: seq<TxId>) {
    forall i, j :: 0 <= i < j < |s| ==> s[i] != s[j]
  }

  function Flat(blocks: seq<DedupBlock>): seq<TxId> {
    if blocks == [] then [] else blocks[0].txIDs + Flat(blocks[1..])
  }

  predicate Increasing(blocks: seq<DedupBlock>) {
    forall i, j :: 0 <= i < j < |blocks| ==> blocks[i].blockNumber < blocks[j].blockNumber
  }

  /** The set is the disjoint union of the IDs of the tracked blocks and of the block being mapped:
      listed one after the other, they list the set without repeating an ID. */
  ghost predicate Holds(ids: set<TxId>, blocks: seq<DedupBlock>, current: seq<TxId>) {
    NoRepeats(Flat(blocks) + current) && forall id :: id in ids <==> id in Flat(blocks) + current
  }

  lemma {:induction false} FlatSnoc(blocks: seq<DedupBlock>, b: DedupBlock)
    ensures Flat(blocks + [b]) == Flat(blocks) + b.txIDs
  {
    if blocks == [] {
      assert blocks + [b] == [b];
    } else {
      assert (blocks + [b])[1..] == blocks[1..] + [b];
      FlatSnoc(blocks[1..], b);
    }
  }

  lemma {:induction false} FlatHas(blocks: seq<DedupBlock>, k: nat, id: TxId)
    requires k < |blocks| && id in blocks[k].txIDs
    ensures id in Flat(blocks)
  {
    if k > 0 { FlatHas(blocks[1..], k - 1, id); }
  }

  lemma {:induction false} FlatFrom(blocks: seq<DedupBlock>, id: TxId) returns (k: nat)
    requires id in Flat(blocks)
    ensures k < |blocks| && id in blocks[k].txIDs
  {
    if id in blocks[0].txIDs {
      k := 0;
    } else {
      k := FlatFrom(blocks[1..], id);
      k := k + 1;
    }
  }

  /** Removing the oldest block's IDs leaves those of the others. */
  lemma HoldsRest(ids: set<TxId>, blocks: seq<DedupBlock>)
    requires Holds(ids, blocks, []) && blocks != []
    ensures Holds(ids - (set id | id in blocks[0].txIDs), blocks[1..], [])
  {
    var first, rest := blocks[0].txIDs, Flat(blocks[1..]);
    assert Flat(blocks) + [] == first + rest && rest + [] == rest;
    assert forall j :: 0 <= j < |rest| ==> rest[j] == (first + rest)[|first| + j];
    forall id | id in first ensures id !in rest {
      var i :| 0 <= i < |first| && first[i] == id;
      assert (first + rest)[i] == id;
    }
  }

  class TxIdDedup {
    var ids: set<TxId>
    var blocks: seq<DedupBlock>

    constructor ()
      ensures ids == {} && blocks == []
    {
      ids, blocks := {}, [];
    }

    ghost predicate Valid()
      reads this
    {
      Holds(ids, blocks, []) && Increasing(blocks)
    }

    method Add(id: TxId) returns (added: bool)
      modifies this`ids
      ensures added <==> id !in old(ids)
      ensures ids == old(ids) + {id}
    {
      if id in ids { return false; }
      ids := ids + {id};
      added := true;
    }

    method TrackBlock(blockNumber: nat, txIDs: seq<TxId>)
      requires Holds(ids, blocks, txIDs) && Increasing(blocks)
      requires AllBelow(blocks, blockNumber)
      modifies this`blocks
      ensures Valid() && blocks == old(blocks) + [DedupBlock(blockNumber, txIDs)]
    {
      FlatSnoc(blocks, DedupBlock(blockNumber, txIDs));
      assert Flat(blocks) + txIDs + [] == Flat(blocks) + txIDs;
      blocks := blocks + [DedupBlock(blockNumber, txIDs)];
    }

    /** Forgets exactly the blocks below blockNumber. */
    method EvictCommittedBelow(blockNumber: nat) returns (ghost cut: nat)
      requires Valid()
      modifies this
      ensures Valid()
      ensures cut <= |old(blocks)| && blocks == old(blocks)[cut..] && Splits(old(blocks), cut, blockNumber)
    {
      var committed := 0;
      while committed < |blocks| && blocks[committed].blockNumber < blockNumber
        invariant 0 <= committed <= |blocks| && blocks == old(blocks)
        invariant Holds(ids, blocks[committed..], [])
        invariant forall i :: 0 <= i < committed ==> blocks[i].blockNumber < blockNumber
      {
        HoldsRest(ids, blocks[committed..]);
        var left := RemoveAll(ids, blocks[committed].txIDs);
        ids := left;
        assert blocks[committed..][1..] == blocks[committed + 1..];
        committed := committed + 1;
      }
      cut := committed;
      blocks := blocks[committed..];
    }
  }

  predicate AllBelow(blocks: seq<DedupBlock>, n: nat) {
    forall b :: b in blocks ==> b.blockNumber < n
  }

  /** The blocks before k are below n and the others are not. */
  predicate Splits(blocks: seq<DedupBlock>, k: nat, n: nat)
    requires k <= |blocks|
  {
    && (forall i :: 0 <= i < k ==> blocks[i].blockNumber < n)
    && (forall i :: k <= i < |blocks| ==> blocks[i].blockNumber >= n)
  }

  method RemoveAll(ids: set<TxId>, gone: seq<TxId>) returns (left: set<TxId>)
    ensures left == ids - (set id | id in gone)
  {
    left := ids;
    for i := 0 to |gone|
      invariant left == ids - (set id | id in gone[..i])
    {
      left := left - {gone[i]};
      assert gone[..i + 1] == gone[..i] + [gone[i]];
    }
    assert gone[..|gone|] == gone;
  }
}

/** Mapping one ordered block into what the relay submits. */
module BlockMapping {
  import opened Arithmetic
  import opened Common
  import opened TxIdDedups

  datatype Status =
    | Unspecified
    | BadEnvelope
    | MissingTxId
    | DuplicateTxId
    | DuplicateSnapshotInBlock
    | Other(code: nat)

  predicate IsStoredInDb(s: Status) {
    !(s.BadEnvelope? || s.MissingTxId? || s.DuplicateTxId?)
  }

  // ---------------------------------------------------------------------
  // Statuses still to come.

  function Unset(status: seq<Status>): nat {
    if status == [] then 0 else Unset(status[..|status| - 1]) + if status[|status| - 1] == Unspecified then 1 else 0
  }

  lemma {:induction false} UnsetPositive(status: seq<Status>, n: nat)
    requires n < |status| && status[n] == Unspecified
    ensures Unset(status) > 0
  {
    if n < |status| - 1 { UnsetPositive(status[..|status| - 1], n); }
  }

  lemma {:induction false} UnsetUpdate(status: seq<Status>, n: nat, x: Status)
    requires n < |status| && status[n] == Unspecified && x != Unspecified
    ensures Unset(status[n := x]) == Unset(status) - 1
  {
    var k := |status| - 1;
    if n == k {
      assert status[n := x][..k] == status[..k];
    } else {
      assert status[n := x][..k] == status[..k][n := x];
      UnsetUpdate(status[..k], n, x);
    }
  }

  lemma {:induction false} UnsetZero(status: seq<Status>)
    requires Unset(status) == 0
    ensures Unspecified !in status
  {
    if status != [] {
      UnsetZero(status[..|status| - 1]);
      assert status == status[..|status| - 1] + [status[|status| - 1]];
    }
  }

  lemma {:induction false} AllUnset(n: nat)
    ensures Unset(seq(n, _ => Unspecified)) == n
  {
    if n > 0 {
      AllUnset(n - 1);
      assert seq(n, _ => Unspecified)[..n - 1] == seq(n - 1, _ => Unspecified);
    }
  }

  datatype TxKind = Regular | Config | Snapshot

  /** What one message says on its own: a rejection, an accepted transaction, or a config transaction
      that fails the whole block. A rejection always carries a status other than Unspecified. */
  datatype Parsed =
    | Unprocessable
    | Malformed(id: TxId, status: Status)
    | WellFormed(id: TxId, kind: TxKind)

  // ---------------------------------------------------------------------
  // Parsing in parallel.

  function ShareStart(len: nat, workers: nat, w: nat): nat
    requires workers > 0
  {
    len * w / workers
  }

  function Workers(len: nat, maxWorkers: int, minBatch: int): int {
    var most := len / (if minBatch > 1 then minBatch else 1);
    if maxWorkers < most then maxWorkers else most
  }

  /** The shares tile the block, and with two workers or more each is at least the minimum batch. */
  lemma SharesTile(len: nat, maxWorkers: int, minBatch: int, w: nat)
    requires Workers(len, maxWorkers, minBatch) >= 2 && w < Workers(len, maxWorkers, minBatch)
    ensures var k := Workers(len, maxWorkers, minBatch);
            && ShareStart(len, k, 0) == 0 && ShareStart(len, k, k) == len
            && ShareStart(len, k, w + 1) >= ShareStart(len, k, w) + (if minBatch > 1 then minBatch else 1)
            && ShareStart(len, k, w + 1) <= len
  {
    var k, m := Workers(len, maxWorkers, minBatch), if minBatch > 1 then minBatch else 1;
    WorkersFit(len, maxWorkers, minBatch);
    assert len * (w + 1) == len * w + len;
    DivPlusMultiple(len * w, m, k);
    DivMonotone(len * w + m * k, len * (w + 1), k);
    DivPlusMultiple(0, len, k);
    DivPlusMultiple(0, 0, k);
    MulMonotone(len, w + 1, k);
    DivMonotone(len * (w + 1), len * k, k);
  }

  lemma WorkersFit(len: nat, maxWorkers: int, minBatch: int)
    ensures len >= (if minBatch > 1 then minBatch else 1) * Workers(len, maxWorkers, minBatch)
  {
    var m := if minBatch > 1 then minBatch else 1;
    assert len == m * (len / m) + len % m;
    MulMonotone(m, Workers(len, maxWorkers, minBatch), len / m);
  }

  function AllParsed<M>(msgs: seq<M>, parse: M -> Parsed): seq<Parsed> {
    seq(|msgs|, i requires 0 <= i < |msgs| => parse(msgs[i]))
  }

  method ParseRange<M>(msgs: seq<M>, parse: M -> Parsed, parsed: array<Parsed>, start: nat, end: nat)
    requires start <= end <= |msgs| == parsed.Length
    modifies parsed
    ensures forall i :: 0 <= i < |msgs| ==> parsed[i] == if start <= i < end then parse(msgs[i]) else old(parsed[i])
  {
    for i := start to end
      invariant forall j :: 0 <= j < |msgs| ==> parsed[j] == if start <= j < i then parse(msgs[j]) else old(parsed[j])
    {
      parsed[i] := parse(msgs[i]);
    }
  }

  /** Every position of the block falls into the share of exactly one worker. */
  lemma {:induction false} ShareOf(len: nat, maxWorkers: int, minBatch: int, n: nat, i: nat) returns (w: nat)
    requires Workers(len, maxWorkers, minBatch) >= 2 && 0 < n <= Workers(len, maxWorkers, minBatch)
    requires i < ShareStart(len, Workers(len, maxWorkers, minBatch), n)
    ensures var k := Workers(len, maxWorkers, minBatch);
            w < n && ShareStart(len, k, w) <= i < ShareStart(len, k, w + 1)
  {
    SharesTile(len, maxWorkers, minBatch, 0);
    if ShareStart(len, Workers(len, maxWorkers, minBatch), n - 1) <= i {
      w := n - 1;
    } else {
      w := ShareOf(len, maxWorkers, minBatch, n - 1, i);
    }
  }

  /** What is parsed does not depend on how many workers there are nor on the order they run in. */
  method ParseMessages<M>(msgs: seq<M>, parse: M -> Parsed, maxWorkers: int, minBatch: int) returns (r: seq<Parsed>)
    ensures r == AllParsed(msgs, parse)
  {
    var parsed := new Parsed[|msgs|](_ => Unprocessable);
    var workers := Workers(|msgs|, maxWorkers, minBatch);
    if workers < 2 {
      ParseRange(msgs, parse, parsed, 0, |msgs|);
      return parsed[..];
    }
    var todo := Below(workers);
    while todo != {}
      invariant forall w :: w in todo ==> 0 <= w < workers
      invariant forall w: nat, i: nat :: w < workers && w !in todo && InShare(|msgs|, workers, w, i) && i < |msgs| ==>
                  parsed[i] == parse(msgs[i])
      decreases todo
    {
      var w :| w in todo;
      todo := todo - {w};
      SharesTile(|msgs|, maxWorkers, minBatch, w);
      ParseRange(msgs, parse, parsed, ShareStart(|msgs|, workers, w), ShareStart(|msgs|, workers, w + 1));
    }
    forall i | 0 <= i < |msgs| ensures parsed[i] == parse(msgs[i]) {
      SharesTile(|msgs|, maxWorkers, minBatch, 0);
      var w := ShareOf(|msgs|, maxWorkers, minBatch, workers, i);
      assert InShare(|msgs|, workers, w, i);
    }
    r := parsed[..];
  }

  predicate InShare(len: nat, workers: nat, w: nat, i: nat)
    requires workers > 0
  {
    ShareStart(len, workers, w) <= i < ShareStart(len, workers, w + 1)
  }

  // ---------------------------------------------------------------------
  // The fate of each message, decided from the messages before it.

  datatype Fate =
    | Submitted
    | Rejected(status: Status)
    | AsSnapshot
    | FinalNow(status: Status)
    | FailsBlock

  /** The message takes its transaction ID unless it is taken. */
  predicate Claims(p: Parsed) {
    p.WellFormed? || (p.Malformed? && IsStoredInDb(p.status))
  }

  predicate Taken(ids: set<TxId>, parsed: seq<Parsed>, i: nat, id: TxId)
    requires i <= |parsed|
  {
    id in ids || exists j :: 0 <= j < i && Claims(parsed[j]) && parsed[j].id == id
  }

  predicate IsSnapshot(p: Parsed) {
    p.WellFormed? && p.kind == Snapshot
  }

  predicate SnapshotBefore(ids: set<TxId>, parsed: seq<Parsed>, i: nat)
    requires i <= |parsed|
  {
    exists j :: 0 <= j < i && IsSnapshot(parsed[j]) && !Taken(ids, parsed, j, parsed[j].id)
  }

  function FateOf(ids: set<TxId>, parsed: seq<Parsed>, i: nat): Fate
    requires i < |parsed|
  {
    match parsed[i]
    case Unprocessable => FailsBlock
    case Malformed(id, status) =>
      if !IsStoredInDb(status) then FinalNow(status)
      else if Taken(ids, parsed, i, id) then FinalNow(DuplicateTxId)
      else Rejected(status)
    case WellFormed(id, kind) =>
      if Taken(ids, parsed, i, id) then (if kind.Config? then FailsBlock else FinalNow(DuplicateTxId))
      else if kind.Snapshot? then
        (if SnapshotBefore(ids, parsed, i) then Rejected(DuplicateSnapshotInBlock) else AsSnapshot)
      else Submitted
  }

  // ---------------------------------------------------------------------
  // Folding the messages into the block, one at a time.

  datatype Rejection = Rejection(txNum: nat, status: Status)

  datatype Mapped = Mapped(
    txs: seq<nat>, rejected: seq<Rejection>, snapshot: Option<nat>, isConfig: bool,
    txStatus: seq<Status>, pendingCount: int, txIDs: seq<TxId>, ids: set<TxId>)

  predicate Ascending(s: seq<nat>, bound: nat) {
    && (forall i, j :: 0 <= i < j < |s| ==> s[i] < s[j])
    && (forall i :: 0 <= i < |s| ==> s[i] < bound)
  }

  predicate AscendingRejections(s: seq<Rejection>, bound: nat) {
    && (forall i, j :: 0 <= i < j < |s| ==> s[i].txNum < s[j].txNum)
    && (forall i :: 0 <= i < |s| ==> s[i].txNum < bound)
  }

  /** m shows what became of message k, and in one way only. */
  ghost predicate Shows(m: Mapped, k: nat, fate: Fate) {
    && (k in m.txs <==> fate.Submitted?)
    && (forall status :: Rejection(k, status) in m.rejected <==> fate == Rejected(status))
    && (m.snapshot == Some(k) <==> fate.AsSnapshot?)
    && k < |m.txStatus| && m.txStatus[k] == if fate.FinalNow? then fate.status else Unspecified
  }

  ghost predicate FatesShown(ids: set<TxId>, parsed: seq<Parsed>, i: nat, m: Mapped)
    requires i <= |parsed|
  {
    && |m.txStatus| == |parsed|
    && (forall k :: 0 <= k < i ==> Shows(m, k, FateOf(ids, parsed, k)))
    && (forall k :: i <= k < |parsed| ==> m.txStatus[k] == Unspecified)
    && Ascending(m.txs, i) && AscendingRejections(m.rejected, i)
    && (m.snapshot.Some? ==> m.snapshot.value < i)
  }

  ghost predicate IdsTaken(ids: set<TxId>, parsed: seq<Parsed>, i: nat, m: Mapped)
    requires i <= |parsed|
  {
    && (forall id :: id in m.ids <==> Taken(ids, parsed, i, id))
    && NoRepeats(m.txIDs) && (forall id :: id in m.ids <==> id in ids || id in m.txIDs)
    && (forall id :: id in m.txIDs ==> id !in ids)
  }

  /** The first i messages are folded in: the fate of each is shown, the pending count is what was
      submitted, rejected or kept as the snapshot plus what is still to come. */
  ghost predicate Folded(ids: set<TxId>, parsed: seq<Parsed>, i: nat, m: Mapped)
    requires i <= |parsed|
  {
    && FatesShown(ids, parsed, i, m) && IdsTaken(ids, parsed, i, m)
    && (m.snapshot.Some? <==> SnapshotBefore(ids, parsed, i))
    && m.pendingCount == |parsed| - i + |m.txs| + |m.rejected| + (if m.snapshot.Some? then 1 else 0)
    && m.pendingCount == Unset(m.txStatus)
    && (m.isConfig <==> exists k :: 0 <= k < i && parsed[k].WellFormed? && parsed[k].kind == Config)
  }

  function Finalised(m: Mapped, i: nat, status: Status): Mapped
    requires i < |m.txStatus|
  {
    m.(txStatus := m.txStatus[i := status], pendingCount := m.pendingCount - 1)
  }

  function TakeId(m: Mapped, id: TxId): Mapped {
    m.(txIDs := m.txIDs + [id], ids := m.ids + {id})
  }

  /** One message folded in, or None when it fails the block. */
  function Applied(m: Mapped, i: nat, p: Parsed): Option<Mapped>
    requires i < |m.txStatus|
  {
    match p
    case Unprocessable => None
    case Malformed(id, status) =>
      if !IsStoredInDb(status) then Some(Finalised(m, i, status))
      else if id in m.ids then Some(Finalised(m, i, DuplicateTxId))
      else Some(TakeId(m, id).(rejected := m.rejected + [Rejection(i, status)]))
    case WellFormed(id, kind) =>
      if id in m.ids then (if kind.Config? then None else Some(Finalised(m, i, DuplicateTxId)))
      else if kind.Config? then Some(TakeId(m, id).(txs := m.txs + [i], isConfig := true))
      else if kind.Regular? then Some(TakeId(m, id).(txs := m.txs + [i]))
      else if m.snapshot.None? then Some(TakeId(m, id).(snapshot := Some(i)))
      else Some(TakeId(m, id).(rejected := m.rejected + [Rejection(i, DuplicateSnapshotInBlock)]))
  }

  /** Folding in message i leaves what earlier messages became. */
  lemma EarlierKept(m: Mapped, now: Mapped, i: nat, k: nat, fate: Fate)
    requires k < i < |m.txStatus| && Shows(m, k, fate)
    requires now.txs == m.txs || now.txs == m.txs + [i]
    requires now.rejected == m.rejected || exists s :: now.rejected == m.rejected + [Rejection(i, s)]
    requires now.snapshot == m.snapshot || (m.snapshot.None? && now.snapshot == Some(i))
    requires |now.txStatus| == |m.txStatus| && forall j :: 0 <= j < |m.txStatus| && j != i ==>
               now.txStatus[j] == m.txStatus[j]
    ensures Shows(now, k, fate)
  {
  }

  lemma FoldFinal(ids: set<TxId>, parsed: seq<Parsed>, i: nat, m: Mapped, status: Status)
    requires i < |parsed| && Folded(ids, parsed, i, m) && FateOf(ids, parsed, i) == FinalNow(status)
    requires Claims(parsed[i]) ==> parsed[i].id in m.ids && parsed[i] != WellFormed(parsed[i].id, Config)
    ensures Folded(ids, parsed, i + 1, Finalised(m, i, status))
  {
    var now := Finalised(m, i, status);
    UnsetUpdate(m.txStatus, i, status);
    forall k | 0 <= k < i + 1 ensures Shows(now, k, FateOf(ids, parsed, k)) {
      if k < i { EarlierKept(m, now, i, k, FateOf(ids, parsed, k)); }
    }
    assert SnapshotBefore(ids, parsed, i + 1) == SnapshotBefore(ids, parsed, i);
    forall id ensures id in now.ids <==> Taken(ids, parsed, i + 1, id) { TakenNext(ids, parsed, i, id); }
  }

  lemma TakenNext(ids: set<TxId>, parsed: seq<Parsed>, i: nat, id: TxId)
    requires i < |parsed|
    ensures Taken(ids, parsed, i + 1, id) <==> Taken(ids, parsed, i, id) || (Claims(parsed[i]) && parsed[i].id == id)
  {
  }

  lemma SnapshotNext(ids: set<TxId>, parsed: seq<Parsed>, i: nat)
    requires i < |parsed|
    ensures SnapshotBefore(ids, parsed, i + 1) <==>
            SnapshotBefore(ids, parsed, i) || (IsSnapshot(parsed[i]) && !Taken(ids, parsed, i, parsed[i].id))
  {
  }

  lemma IdsNext(ids: set<TxId>, parsed: seq<Parsed>, i: nat, m: Mapped)
    requires i < |parsed| && IdsTaken(ids, parsed, i, m) && Claims(parsed[i]) && parsed[i].id !in m.ids
    ensures IdsTaken(ids, parsed, i + 1, TakeId(m, parsed[i].id))
  {
    var now := TakeId(m, parsed[i].id);
    forall x ensures x in now.ids <==> Taken(ids, parsed, i + 1, x) { TakenNext(ids, parsed, i, x); }
  }

  lemma FatesNext(ids: set<TxId>, parsed: seq<Parsed>, i: nat, m: Mapped, now: Mapped)
    requires i < |parsed| && Folded(ids, parsed, i, m)
    requires Claims(parsed[i]) && parsed[i].id !in m.ids && Applied(m, i, parsed[i]) == Some(now)
    ensures FatesShown(ids, parsed, i + 1, now)
  {
    LatestShown(ids, parsed, i, m, now);
    StillAscending(m, i, parsed[i], now);
    forall k | 0 <= k < i ensures Shows(now, k, FateOf(ids, parsed, k)) {
      AppliedAppends(m, i, parsed[i], now);
      EarlierKept(m, now, i, k, FateOf(ids, parsed, k));
    }
  }

  lemma AppliedAppends(m: Mapped, i: nat, p: Parsed, now: Mapped)
    requires i < |m.txStatus| && Claims(p) && p.id !in m.ids && Applied(m, i, p) == Some(now)
    ensures now.txs == m.txs || now.txs == m.txs + [i]
    ensures now.rejected == m.rejected || exists s :: now.rejected == m.rejected + [Rejection(i, s)]
    ensures now.snapshot == m.snapshot || (m.snapshot.None? && now.snapshot == Some(i))
    ensures now.txStatus == m.txStatus
  {
  }

  lemma StillAscending(m: Mapped, i: nat, p: Parsed, now: Mapped)
    requires i < |m.txStatus| && Claims(p) && p.id !in m.ids && Applied(m, i, p) == Some(now)
    requires Ascending(m.txs, i) && AscendingRejections(m.rejected, i)
    ensures Ascending(now.txs, i + 1) && AscendingRejections(now.rejected, i + 1)
  {
  }

  /** The message takes its ID and goes to one of the three lists. */
  lemma FoldTaken(ids: set<TxId>, parsed: seq<Parsed>, i: nat, m: Mapped, now: Mapped)
    requires i < |parsed| && Folded(ids, parsed, i, m)
    requires Claims(parsed[i]) && parsed[i].id !in m.ids && Applied(m, i, parsed[i]) == Some(now)
    ensures Folded(ids, parsed, i + 1, now)
  {
    SnapshotNext(ids, parsed, i);
    IdsNext(ids, parsed, i, m);
    FatesNext(ids, parsed, i, m, now);
  }

  lemma LatestShown(ids: set<TxId>, parsed: seq<Parsed>, i: nat, m: Mapped, now: Mapped)
    requires i < |parsed| && Folded(ids, parsed, i, m)
    requires Claims(parsed[i]) && parsed[i].id !in m.ids && Applied(m, i, parsed[i]) == Some(now)
    ensures Shows(now, i, FateOf(ids, parsed, i))
  {
    assert !Taken(ids, parsed, i, parsed[i].id);
    assert i !in m.txs && forall s :: Rejection(i, s) !in m.rejected;
  }

  lemma AppliedFolds(ids: set<TxId>, parsed: seq<Parsed>, i: nat, m: Mapped)
    requires i < |parsed| && Folded(ids, parsed, i, m)
    ensures Applied(m, i, parsed[i]).None? <==> FateOf(ids, parsed, i).FailsBlock?
    ensures Applied(m, i, parsed[i]).Some? ==> Folded(ids, parsed, i + 1, Applied(m, i, parsed[i]).value)
  {
    var p := parsed[i];
    if !p.Unprocessable? {
      assert p.id in m.ids <==> Taken(ids, parsed, i, p.id);
      if Claims(p) && p.id !in m.ids {
        FoldTaken(ids, parsed, i, m, Applied(m, i, p).value);
      } else if FateOf(ids, parsed, i).FinalNow? {
        FoldFinal(ids, parsed, i, m, FateOf(ids, parsed, i).status);
      }
    }
  }

  function NothingMapped(n: nat, ids: set<TxId>): Mapped {
    Mapped([], [], None, false, seq(n, _ => Unspecified), n, [], ids)
  }

  lemma StartsFolded(ids: set<TxId>, parsed: seq<Parsed>)
    ensures Folded(ids, parsed, 0, NothingMapped(|parsed|, ids))
  {
    AllUnset(|parsed|);
  }

  class BlockMapper {
    const dedup: TxIdDedup
    var txs: seq<nat>
    var rejected: seq<Rejection>
    var snapshot: Option<nat>
    var isConfig: bool
    var txStatus: seq<Status>
    var pendingCount: int
    var txIDs: seq<TxId>

    function Contents(): Mapped
      reads this, dedup
    {
      Mapped(txs, rejected, snapshot, isConfig, txStatus, pendingCount, txIDs, dedup.ids)
    }

    constructor (dedup: TxIdDedup, txCount: nat)
      ensures this.dedup == dedup
      ensures Contents() == NothingMapped(txCount, dedup.ids)
    {
      this.dedup := dedup;
      txs, rejected, snapshot, isConfig := [], [], None, false;
      txStatus, pendingCount, txIDs := seq(txCount, _ => Unspecified), txCount, [];
    }

    method SetFinalStatus(txNum: nat, status: Status) returns (ok: bool)
      requires txNum < |txStatus|
      modifies this`txStatus, this`pendingCount
      ensures ok <==> old(txStatus)[txNum] == Unspecified
      ensures Contents() == if ok then Finalised(old(Contents()), txNum, status) else old(Contents())
    {
      if txStatus[txNum] != Unspecified { return false; }
      txStatus := txStatus[txNum := status];
      pendingCount := pendingCount - 1;
      ok := true;
    }

    method RejectNonDbStatusTx(txNum: nat, status: Status) returns (ok: bool)
      requires txNum < |txStatus|
      modifies this`txStatus, this`pendingCount
      ensures ok <==> !IsStoredInDb(status) && old(txStatus)[txNum] == Unspecified
      ensures Contents() == if ok then Finalised(old(Contents()), txNum, status) else old(Contents())
    {
      if IsStoredInDb(status) { return false; }
      ok := SetFinalStatus(txNum, status);
    }

    method AddTxIdMapping(txNum: nat, id: TxId) returns (alreadyExists: bool, ok: bool)
      requires txNum < |txStatus| && txStatus[txNum] == Unspecified
      modifies this`txIDs, this`txStatus, this`pendingCount, dedup`ids
      ensures ok && (alreadyExists <==> id in old(dedup.ids))
      ensures Contents() ==
                if alreadyExists then Finalised(old(Contents()), txNum, DuplicateTxId) else TakeId(old(Contents()), id)
    {
      var added := dedup.Add(id);
      if added {
        txIDs := txIDs + [id];
        return false, true;
      }
      alreadyExists := true;
      assert dedup.ids == old(dedup.ids);
      ok := RejectNonDbStatusTx(txNum, DuplicateTxId);
    }

    method RejectTx(txNum: nat, id: TxId, status: Status) returns (ok: bool)
      requires txNum < |txStatus| && txStatus[txNum] == Unspecified
      modifies this, dedup`ids
      ensures ok && Applied(old(Contents()), txNum, Malformed(id, status)) == Some(Contents())
    {
      if !IsStoredInDb(status) {
        ok := RejectNonDbStatusTx(txNum, status);
        return;
      }
      var alreadyExists;
      alreadyExists, ok := AddTxIdMapping(txNum, id);
      if alreadyExists { return; }
      rejected := rejected + [Rejection(txNum, status)];
    }

    method ApplyParsedTx(txNum: nat, p: Parsed) returns (ok: bool)
      requires txNum < |txStatus| && txStatus[txNum] == Unspecified
      modifies this, dedup`ids
      ensures ok <==> Applied(old(Contents()), txNum, p).Some?
      ensures ok ==> Applied(old(Contents()), txNum, p) == Some(Contents())
    {
      if p.Unprocessable? { return false; }
      if p.Malformed? {
        ok := RejectTx(txNum, p.id, p.status);
        return;
      }
      if p.kind.Snapshot? && snapshot.Some? {
        ok := RejectTx(txNum, p.id, DuplicateSnapshotInBlock);
        return;
      }
      var alreadyExists;
      alreadyExists, ok := AddTxIdMapping(txNum, p.id);
      if alreadyExists { return !p.kind.Config?; }
      match p.kind {
        case Regular => txs := txs + [txNum];
        case Config => isConfig, txs := true, txs + [txNum];
        case Snapshot => snapshot := Some(txNum);
      }
    }

    /** Every message of a block that maps lands in exactly one place, the one its fate names. */
    method MapMessages(parsed: seq<Parsed>) returns (ok: bool)
      requires Contents() == NothingMapped(|parsed|, dedup.ids)
      modifies this, dedup`ids
      ensures ok <==> forall i :: 0 <= i < |parsed| ==> !FateOf(old(dedup.ids), parsed, i).FailsBlock?
      ensures ok ==> Folded(old(dedup.ids), parsed, |parsed|, Contents())
    {
      ghost var ids := dedup.ids;
      StartsFolded(ids, parsed);
      for i := 0 to |parsed|
        invariant Folded(ids, parsed, i, Contents())
        invariant forall k :: 0 <= k < i ==> !FateOf(ids, parsed, k).FailsBlock?
      {
        ok := MapMessage(parsed, i, ids);
        if !ok { return; }
      }
      ok := true;
    }

    method MapMessage(parsed: seq<Parsed>, i: nat, ghost ids: set<TxId>) returns (ok: bool)
      requires i < |parsed| && Folded(ids, parsed, i, Contents())
      modifies this, dedup`ids
      ensures ok <==> !FateOf(ids, parsed, i).FailsBlock?
      ensures ok ==> Folded(ids, parsed, i + 1, Contents())
    {
      AppliedFolds(ids, parsed, i, Contents());
      ok := ApplyParsedTx(i, parsed[i]);
    }
  }

  // ---------------------------------------------------------------------
  // The relay's first goroutine: evict, map, track.

  datatype Block<M> = Block(number: nat, data: Option<seq<M>>)

  const NO_TXS := Mapped([], [], None, false, [], 0, [], {})

  /** What a mapped block says about its messages, given the IDs in flight before it. */
  ghost predicate MapsTo<M>(ids: set<TxId>, block: Block<M>, parse: M -> Parsed, m: Mapped) {
    match block.data
    case None => m == NO_TXS
    case Some(msgs) => Folded(ids, AllParsed(msgs, parse), |msgs|, m)
  }

  // ---------------------------------------------------------------------
  // What a mapped block says, message by message.

  /** Statuses that are settled without the database: they answer the message at once and leave its ID
      alone. */
  predicate SettledAtOnce(s: Status) {
    s == BadEnvelope || s == MissingTxId || s == DuplicateTxId
  }

  predicate UsesId(p: Parsed, id: TxId) {
    match p
    case Unprocessable => false
    case Malformed(own, status) => own == id && !SettledAtOnce(status)
    case WellFormed(own, _) => own == id
  }

  predicate UsedBefore(ids: set<TxId>, parsed: seq<Parsed>, i: nat, id: TxId)
    requires i <= |parsed|
  {
    id in ids || exists j :: 0 <= j < i && UsesId(parsed[j], id)
  }

  /** Message i has its final status and goes nowhere. */
  ghost predicate AnsweredAtOnce(m: Mapped, i: nat, status: Status) {
    && i < |m.txStatus| && m.txStatus[i] == status
    && i !in m.txs && m.snapshot != Some(i) && forall r :: r in m.rejected ==> r.txNum != i
  }

  /** Message i waits for its status, and is one of the transactions, a rejection or the snapshot. */
  ghost predicate GoesOnAs(m: Mapped, i: nat, tx: bool, rejection: Option<Status>, snapshot: bool) {
    && i < |m.txStatus| && m.txStatus[i] == Unspecified && (i in m.txs <==> tx) && (m.snapshot == Some(i) <==> snapshot)
    && (forall r :: r in m.rejected && r.txNum == i ==> rejection == Some(r.status))
    && (rejection.Some? ==> Rejection(i, rejection.value) in m.rejected)
  }

  /** A new snapshot message comes before message i. */
  predicate SnapshotFound(ids: set<TxId>, parsed: seq<Parsed>, i: nat)
    requires i <= |parsed|
  {
    exists j :: 0 <= j < i && parsed[j].WellFormed? && parsed[j].kind == Snapshot &&
      !UsedBefore(ids, parsed, j, parsed[j].id)
  }

  ghost predicate MessageMapped(ids: set<TxId>, parsed: seq<Parsed>, m: Mapped, i: nat)
    requires i < |parsed|
  {
    match parsed[i]
    case Unprocessable => false
    case Malformed(id, status) =>
      if SettledAtOnce(status) then AnsweredAtOnce(m, i, status)
      else if UsedBefore(ids, parsed, i, id) then AnsweredAtOnce(m, i, DuplicateTxId)
      else id in m.txIDs && GoesOnAs(m, i, false, Some(status), false)
    case WellFormed(id, kind) =>
      if UsedBefore(ids, parsed, i, id) then kind != Config && AnsweredAtOnce(m, i, DuplicateTxId)
      else if kind != Snapshot then id in m.txIDs && GoesOnAs(m, i, true, None, false)
      else if SnapshotFound(ids, parsed, i) then
        id in m.txIDs && GoesOnAs(m, i, false, Some(DuplicateSnapshotInBlock), false)
      else id in m.txIDs && GoesOnAs(m, i, false, None, true)
  }

  lemma UsedIsTaken(ids: set<TxId>, parsed: seq<Parsed>, i: nat, id: TxId)
    requires i <= |parsed|
    ensures UsedBefore(ids, parsed, i, id) <==> Taken(ids, parsed, i, id)
  {
    forall j | 0 <= j < i ensures UsesId(parsed[j], id) <==> Claims(parsed[j]) && parsed[j].id == id {}
  }

  lemma SnapshotIsFound(ids: set<TxId>, parsed: seq<Parsed>, i: nat)
    requires i <= |parsed|
    ensures SnapshotFound(ids, parsed, i) <==> SnapshotBefore(ids, parsed, i)
  {
    forall j | 0 <= j < i && parsed[j].WellFormed?
      ensures UsedBefore(ids, parsed, j, parsed[j].id) <==> Taken(ids, parsed, j, parsed[j].id)
    {
      UsedIsTaken(ids, parsed, j, parsed[j].id);
    }
  }

  lemma RejectionsOf(m: Mapped, i: nat, fate: Fate)
    requires Shows(m, i, fate)
    ensures forall r :: r in m.rejected && r.txNum == i ==> fate == Rejected(r.status)
  {
    forall r | r in m.rejected && r.txNum == i ensures fate == Rejected(r.status) {
      assert r == Rejection(i, r.status);
    }
  }

  /** Every message of a block that maps is answered at once or goes on as its kind demands, by what the
      messages before it and the IDs in flight used; what the block waits for is what goes on, and its IDs
      are the new ones its messages use. */
  lemma MappedByMessage(ids: set<TxId>, parsed: seq<Parsed>, m: Mapped, i: nat)
    requires Folded(ids, parsed, |parsed|, m) && i < |parsed| && !FateOf(ids, parsed, i).FailsBlock?
    ensures MessageMapped(ids, parsed, m, i)
    ensures forall id :: id in m.txIDs <==> id !in ids && UsedBefore(ids, parsed, |parsed|, id)
    ensures m.pendingCount == |m.txs| + |m.rejected| + (if m.snapshot.Some? then 1 else 0)
  {
    var fate := FateOf(ids, parsed, i);
    assert Shows(m, i, fate);
    RejectionsOf(m, i, fate);
    SnapshotIsFound(ids, parsed, i);
    forall id ensures id in m.txIDs <==> id !in ids && UsedBefore(ids, parsed, |parsed|, id) {
      UsedIsTaken(ids, parsed, |parsed|, id);
    }
    if !parsed[i].Unprocessable? { UsedIsTaken(ids, parsed, i, parsed[i].id); }
  }

  /** A block fails exactly on a message that cannot be processed and on a config transaction whose ID is
      used. */
  lemma FailsIff(ids: set<TxId>, parsed: seq<Parsed>, i: nat)
    requires i < |parsed|
    ensures FateOf(ids, parsed, i).FailsBlock? <==>
            parsed[i].Unprocessable? ||
              (parsed[i].WellFormed? && parsed[i].kind == Config && UsedBefore(ids, parsed, i, parsed[i].id))
  {
    if !parsed[i].Unprocessable? { UsedIsTaken(ids, parsed, i, parsed[i].id); }
  }

  predicate MapsNothing(m: Mapped) {
    m.txs == [] && m.rejected == [] && m.snapshot.None? && !m.isConfig && m.txStatus == [] && m.pendingCount == 0 &&
    m.txIDs == []
  }

  ghost predicate AllMessagesMapped<M>(ids: set<TxId>, block: Block<M>, parse: M -> Parsed, m: Mapped) {
    if block.data.None? then MapsNothing(m) else
    var parsed := AllParsed(block.data.value, parse);
    && (forall i :: 0 <= i < |parsed| ==> MessageMapped(ids, parsed, m, i))
    && |m.txStatus| == |block.data.value|
    && (m.isConfig <==> exists i :: 0 <= i < |parsed| && parsed[i].WellFormed? && parsed[i].kind == Config)
  }

  lemma BlockByMessage<M>(ids: set<TxId>, block: Block<M>, parse: M -> Parsed, m: Mapped)
    requires Passes(ids, block, parse) && MapsTo(ids, block, parse, m)
    ensures AllMessagesMapped(ids, block, parse, m)
  {
    if block.data.Some? {
      var parsed := AllParsed(block.data.value, parse);
      forall i | 0 <= i < |parsed| ensures MessageMapped(ids, parsed, m, i) { MappedByMessage(ids, parsed, m, i); }
    }
  }

  /** No message of the block fails it. */
  ghost predicate Passes<M>(ids: set<TxId>, block: Block<M>, parse: M -> Parsed) {
    block.data.Some? ==> forall i :: 0 <= i < |block.data.value| ==>
      !FateOf(ids, AllParsed(block.data.value, parse), i).FailsBlock?
  }

  lemma StillHolds(ids: set<TxId>, blocks: seq<DedupBlock>, m: Mapped)
    requires Holds(ids, blocks, []) && NoRepeats(m.txIDs)
    requires forall id :: id in m.ids <==> id in ids || id in m.txIDs
    requires forall id :: id in m.txIDs ==> id !in ids
    ensures Holds(m.ids, blocks, m.txIDs)
  {
    var flat := Flat(blocks);
    assert flat + [] == flat;
    forall i, j | 0 <= i < j < |flat + m.txIDs| ensures (flat + m.txIDs)[i] != (flat + m.txIDs)[j] {
      if i < |flat| <= j { assert flat[i] in ids && m.txIDs[j - |flat|] in m.txIDs; }
    }
  }

  method MapBlock<M>(block: Block<M>, dedup: TxIdDedup, parse: M -> Parsed, maxWorkers: int, minBatch: int)
    returns (m: Mapped, ok: bool)
    requires dedup.Valid() && AllBelow(dedup.blocks, block.number)
    modifies dedup
    ensures ok <==> Passes(old(dedup.ids), block, parse)
    ensures ok ==> dedup.Valid() && MapsTo(old(dedup.ids), block, parse, m) && NoRepeats(m.txIDs)
    ensures ok ==> AllMessagesMapped(old(dedup.ids), block, parse, m)
    ensures ok ==> forall id :: id in m.txIDs ==> id !in old(dedup.ids)
    ensures ok ==> forall id :: id in dedup.ids <==> id in old(dedup.ids) || id in m.txIDs
    ensures ok ==>
              dedup.blocks ==
              old(dedup.blocks) + if block.data.None? then [] else [DedupBlock(block.number, m.txIDs)]
  {
    if block.data.None? {
      BlockByMessage(dedup.ids, block, parse, NO_TXS);
      return NO_TXS, true;
    }
    var parsed := ParseMessages(block.data.value, parse, maxWorkers, minBatch);
    var mapper := new BlockMapper(dedup, |parsed|);
    ok := mapper.MapMessages(parsed);
    m := mapper.Contents();
    if ok {
      BlockByMessage(old(dedup.ids), block, parse, m);
      StillHolds(old(dedup.ids), dedup.blocks, m);
      dedup.TrackBlock(block.number, mapper.txIDs);
    }
  }

  /** The tracked blocks cover every mapped block that was not committed when last looked at. */
  ghost predicate Covers<M>(blocks: seq<DedupBlock>, incoming: seq<Block<M>>, mapped: seq<Mapped>, next: nat) {
    && |mapped| <= |incoming|
    && forall i :: 0 <= i < |mapped| && mapped[i].txIDs != [] ==>
         DedupBlock(incoming[i].number, mapped[i].txIDs) in blocks || incoming[i].number < next
  }

  /** And nothing but mapped blocks is tracked. */
  ghost predicate Tracks<M>(blocks: seq<DedupBlock>, incoming: seq<Block<M>>, mapped: seq<Mapped>) {
    && |mapped| <= |incoming|
    && forall b :: b in blocks ==> exists j :: 0 <= j < |mapped| && b == DedupBlock(incoming[j].number, mapped[j].txIDs)
  }

  /** id was accepted in one of the first n blocks, and that block is not committed when next is the next
      block to commit. */
  ghost predicate InFlight<M>(incoming: seq<Block<M>>, mapped: seq<Mapped>, n: nat, next: nat, id: TxId)
    requires n <= |mapped| <= |incoming|
  {
    exists j :: 0 <= j < n && incoming[j].number >= next && id in mapped[j].txIDs
  }

  /** Right after eviction the set holds exactly the IDs in flight. */
  lemma ExactlyInFlight<M>(ids: set<TxId>, blocks: seq<DedupBlock>, incoming: seq<Block<M>>, mapped: seq<Mapped>,
                           next: nat, id: TxId)
    requires Holds(ids, blocks, []) && Covers(blocks, incoming, mapped, next) && Tracks(blocks, incoming, mapped)
    requires forall b :: b in blocks ==> b.blockNumber >= next
    ensures id in ids <==> InFlight(incoming, mapped, |mapped|, next, id)
  {
    assert Flat(blocks) + [] == Flat(blocks);
    if id in ids {
      var k := FlatFrom(blocks, id);
      assert blocks[k] in blocks;
    }
    if InFlight(incoming, mapped, |mapped|, next, id) {
      var j :| 0 <= j < |mapped| && incoming[j].number >= next && id in mapped[j].txIDs;
      var b := DedupBlock(incoming[j].number, mapped[j].txIDs);
      var k :| 0 <= k < |blocks| && blocks[k] == b;
      FlatHas(blocks, k, id);
    }
  }

  lemma CoversEvicted<M>(blocks: seq<DedupBlock>, k: nat, incoming: seq<Block<M>>, mapped: seq<Mapped>, next: nat,
                         next': nat)
    requires k <= |blocks| && Splits(blocks, k, next') && next <= next' && Covers(blocks, incoming, mapped, next)
    ensures Covers(blocks[k..], incoming, mapped, next')
  {
    forall i | 0 <= i < |mapped| && mapped[i].txIDs != []
      ensures DedupBlock(incoming[i].number, mapped[i].txIDs) in blocks[k..] || incoming[i].number < next'
    {
      var b := DedupBlock(incoming[i].number, mapped[i].txIDs);
      if b in blocks {
        var j :| 0 <= j < |blocks| && blocks[j] == b;
        if j >= k { assert blocks[k..][j - k] == b; }
      }
    }
  }

  /** An ID accepted now and before belonged to a block that is committed by now. */
  ghost predicate FreshIds<M>(incoming: seq<Block<M>>, mapped: seq<Mapped>, next: seq<nat>) {
    && |mapped| <= |incoming| && |mapped| <= |next|
    && (forall i :: 0 <= i < |mapped| ==> NoRepeats(mapped[i].txIDs))
    && forall i, j, id :: 0 <= i < j < |mapped| && id in mapped[i].txIDs && id in mapped[j].txIDs ==>
         incoming[i].number < next[j]
  }

  lemma FreshIdsSnoc<M>(ids: set<TxId>, blocks: seq<DedupBlock>, incoming: seq<Block<M>>, mapped: seq<Mapped>,
                        next: seq<nat>, m: Mapped)
    requires FreshIds(incoming, mapped, next) && |mapped| < |incoming| && |mapped| < |next|
    requires Holds(ids, blocks, []) && Covers(blocks, incoming, mapped, next[|mapped|])
    requires NoRepeats(m.txIDs) && forall id :: id in m.txIDs ==> id !in ids
    ensures FreshIds(incoming, mapped + [m], next)
  {
    forall i, id | 0 <= i < |mapped| && id in mapped[i].txIDs && id in m.txIDs
      ensures incoming[i].number < next[|mapped|]
    {
      var b := DedupBlock(incoming[i].number, mapped[i].txIDs);
      if b in blocks {
        var k :| 0 <= k < |blocks| && blocks[k] == b;
        FlatHas(blocks, k, id);
      }
    }
  }

  lemma CoversSnoc<M>(blocks: seq<DedupBlock>, blocks': seq<DedupBlock>, incoming: seq<Block<M>>, mapped: seq<Mapped>,
                      m: Mapped, next: nat)
    requires |mapped| < |incoming| && Covers(blocks, incoming, mapped, next)
    requires forall b :: b in blocks ==> b in blocks'
    requires m.txIDs != [] ==> DedupBlock(incoming[|mapped|].number, m.txIDs) in blocks'
    ensures Covers(blocks', incoming, mapped + [m], next)
  {
  }

  /** Where a run stands after the blocks mapped so far; seen is the last reading of the next block to
      commit. */
  ghost predicate Going<M>(ids: set<TxId>, blocks: seq<DedupBlock>, incoming: seq<Block<M>>, mapped: seq<Mapped>,
                           next: seq<nat>, seen: nat) {
    && |mapped| <= |incoming| && Holds(ids, blocks, []) && Increasing(blocks)
    && FreshIds(incoming, mapped, next) && Covers(blocks, incoming, mapped, seen) && Tracks(blocks, incoming, mapped)
    && AllBelow(blocks, if mapped == [] then 0 else incoming[|mapped| - 1].number + 1)
  }

  /** One turn: release the IDs of what is committed below next, then map the block. before are the IDs
      in flight in between. */
  method EvictAndMap<M>(incoming: seq<Block<M>>, ghost mapped: seq<Mapped>, ghost seen: nat, k: nat, next: seq<nat>,
                        dedup: TxIdDedup, parse: M -> Parsed, maxWorkers: int, minBatch: int)
    returns (m: Mapped, ok: bool, ghost before: set<TxId>)
    requires k == |mapped| < |incoming| == |next| && seen <= next[k]
    requires k > 0 ==> incoming[k - 1].number < incoming[k].number
    requires Going(dedup.ids, dedup.blocks, incoming, mapped, next, seen)
    modifies dedup
    ensures forall id :: id in before <==> InFlight(incoming, mapped, k, next[k], id)
    ensures ok <==> Passes(before, incoming[k], parse)
    ensures ok ==> MapsTo(before, incoming[k], parse, m)
    ensures ok ==> Going(dedup.ids, dedup.blocks, incoming, mapped + [m], next, next[k])
    ensures ok ==> forall id :: id in dedup.ids <==> id in before || id in m.txIDs
  {
    ghost var blocks := dedup.blocks;
    ghost var cut := dedup.EvictCommittedBelow(next[k]);
    Evicted(blocks, cut, incoming, mapped, seen, next[k]);
    before := dedup.ids;
    ghost var kept := dedup.blocks;
    forall id ensures id in before <==> InFlight(incoming, mapped, k, next[k], id) {
      ExactlyInFlight(before, kept, incoming, mapped, next[k], id);
    }
    m, ok := MapBlock(incoming[k], dedup, parse, maxWorkers, minBatch);
    if ok { GoesOn(before, kept, dedup.ids, dedup.blocks, incoming, mapped, next, m); }
  }

  lemma Evicted<M>(blocks: seq<DedupBlock>, cut: nat, incoming: seq<Block<M>>, mapped: seq<Mapped>, seen: nat,
                   next: nat)
    requires cut <= |blocks| && Splits(blocks, cut, next) && seen <= next && |mapped| < |incoming|
    requires Covers(blocks, incoming, mapped, seen) && Tracks(blocks, incoming, mapped)
    requires AllBelow(blocks, if mapped == [] then 0 else incoming[|mapped| - 1].number + 1)
    requires mapped != [] ==> incoming[|mapped| - 1].number < incoming[|mapped|].number
    ensures Covers(blocks[cut..], incoming, mapped, next) && AllBelow(blocks[cut..], incoming[|mapped|].number)
    ensures Tracks(blocks[cut..], incoming, mapped) && forall b :: b in blocks[cut..] ==> b.blockNumber >= next
  {
    CoversEvicted(blocks, cut, incoming, mapped, seen, next);
    assert forall b :: b in blocks[cut..] ==> b in blocks;
  }

  lemma GoesOn<M>(ids: set<TxId>, kept: seq<DedupBlock>, ids': set<TxId>, blocks': seq<DedupBlock>,
                  incoming: seq<Block<M>>, mapped: seq<Mapped>, next: seq<nat>, m: Mapped)
    requires |mapped| < |incoming| == |next| && FreshIds(incoming, mapped, next)
    requires Covers(kept, incoming, mapped, next[|mapped|]) && Tracks(kept, incoming, mapped)
    requires Holds(ids, kept, []) && AllBelow(kept, incoming[|mapped|].number)
    requires NoRepeats(m.txIDs) && (forall id :: id in m.txIDs ==> id !in ids)
    requires blocks' ==
             kept + if incoming[|mapped|].data.None? then [] else [DedupBlock(incoming[|mapped|].number, m.txIDs)]
    requires incoming[|mapped|].data.None? ==> m.txIDs == []
    requires Holds(ids', blocks', []) && Increasing(blocks')
    ensures Going(ids', blocks', incoming, mapped + [m], next, next[|mapped|])
  {
    FreshIdsSnoc(ids, kept, incoming, mapped, next, m);
    CoversSnoc(kept, blocks', incoming, mapped, m, next[|mapped|]);
    TracksSnoc(kept, blocks', incoming, mapped, m);
  }

  lemma TracksSnoc<M>(blocks: seq<DedupBlock>, blocks': seq<DedupBlock>, incoming: seq<Block<M>>, mapped: seq<Mapped>,
                      m: Mapped)
    requires |mapped| < |incoming| && Tracks(blocks, incoming, mapped)
    requires forall b :: b in blocks' ==> b in blocks || b == DedupBlock(incoming[|mapped|].number, m.txIDs)
    ensures Tracks(blocks', incoming, mapped + [m])
  {
    var all := mapped + [m];
    forall b | b in blocks'
      ensures exists j :: 0 <= j < |all| && b == DedupBlock(incoming[j].number, all[j].txIDs)
    {
      if b in blocks {
        var j :| 0 <= j < |mapped| && b == DedupBlock(incoming[j].number, mapped[j].txIDs);
        assert all[j] == mapped[j];
      } else {
        assert all[|mapped|] == m;
      }
    }
  }

  predicate NonDecreasing(s: seq<nat>) {
    forall i, j :: 0 <= i < j < |s| ==> s[i] <= s[j]
  }

  predicate NumbersRise<M>(incoming: seq<Block<M>>) {
    forall i, j :: 0 <= i < j < |incoming| ==> incoming[i].number < incoming[j].number
  }

  /** Every block was mapped against exactly the IDs in flight when it was taken up. */
  ghost predicate AllMapped<M>(incoming: seq<Block<M>>, mapped: seq<Mapped>, next: seq<nat>, before: seq<set<TxId>>,
                               parse: M -> Parsed) {
    && |mapped| <= |before| && |mapped| <= |incoming| && |mapped| <= |next|
    && (forall i, id :: 0 <= i < |mapped| ==> (id in before[i] <==> InFlight(incoming, mapped, i, next[i], id)))
    && (forall i :: 0 <= i < |mapped| ==>
          Passes(before[i], incoming[i], parse) && MapsTo(before[i], incoming[i], parse, mapped[i]))
  }

  lemma AllMappedSnoc<M>(incoming: seq<Block<M>>, mapped: seq<Mapped>, next: seq<nat>, before: seq<set<TxId>>,
                         parse: M -> Parsed, ids: set<TxId>, m: Mapped)
    requires AllMapped(incoming, mapped, next, before, parse) && |mapped| == |before|
    requires |mapped| < |incoming| && |mapped| < |next|
    requires forall id :: id in ids <==> InFlight(incoming, mapped, |mapped|, next[|mapped|], id)
    requires Passes(ids, incoming[|mapped|], parse) && MapsTo(ids, incoming[|mapped|], parse, m)
    ensures AllMapped(incoming, mapped + [m], next, before + [ids], parse)
  {
    forall i, id | 0 <= i <= |mapped|
      ensures id in (before + [ids])[i] <==> InFlight(incoming, mapped + [m], i, next[i], id)
    {
      SameInFlight(incoming, mapped, m, i, next[i], id);
    }
  }

  /** The run stops because the next block fails against exactly the IDs in flight. */
  ghost predicate Stopped<M>(incoming: seq<Block<M>>, mapped: seq<Mapped>, next: seq<nat>, before: seq<set<TxId>>,
                             parse: M -> Parsed) {
    && |mapped| < |incoming| && |mapped| < |next| && |before| == |mapped| + 1
    && !Passes(before[|mapped|], incoming[|mapped|], parse)
    && forall id :: id in before[|mapped|] <==> InFlight(incoming, mapped, |mapped|, next[|mapped|], id)
  }

  lemma StoppedThere<M>(incoming: seq<Block<M>>, mapped: seq<Mapped>, next: seq<nat>, before: seq<set<TxId>>,
                        parse: M -> Parsed, ids: set<TxId>)
    requires AllMapped(incoming, mapped, next, before, parse) && |mapped| == |before|
    requires |mapped| < |incoming| && |mapped| < |next| && !Passes(ids, incoming[|mapped|], parse)
    requires forall id :: id in ids <==> InFlight(incoming, mapped, |mapped|, next[|mapped|], id)
    ensures AllMapped(incoming, mapped, next, before + [ids], parse)
    ensures Stopped(incoming, mapped, next, before + [ids], parse)
  {
    assert forall i :: 0 <= i < |mapped| ==> (before + [ids])[i] == before[i];
  }

  lemma SameInFlight<M>(incoming: seq<Block<M>>, mapped: seq<Mapped>, m: Mapped, n: nat, next: nat, id: TxId)
    requires n <= |mapped| < |incoming|
    ensures InFlight(incoming, mapped + [m], n, next, id) <==> InFlight(incoming, mapped, n, next, id)
  {
    assert forall j :: 0 <= j < n ==> (mapped + [m])[j] == mapped[j];
  }

  /** Where a run stands after k blocks, and how it got there. */
  ghost predicate Standing<M>(ids: set<TxId>, blocks: seq<DedupBlock>, incoming: seq<Block<M>>, mapped: seq<Mapped>,
                              next: seq<nat>, before: seq<set<TxId>>, parse: M -> Parsed, k: nat) {
    && k == |mapped| == |before| && k <= |incoming| == |next|
    && Going(ids, blocks, incoming, mapped, next, if k == 0 then 0 else next[k - 1])
    && AllMapped(incoming, mapped, next, before, parse)
    && (k > 0 ==> forall id :: id in ids <==> id in before[k - 1] || id in mapped[k - 1].txIDs)
  }

  method PreProcessBlock<M>(incoming: seq<Block<M>>, ghost mapped: seq<Mapped>, ghost before: seq<set<TxId>>, k: nat,
                            next: seq<nat>, dedup: TxIdDedup, parse: M -> Parsed, maxWorkers: int, minBatch: int)
    returns (m: Mapped, ok: bool, ghost ids: set<TxId>)
    requires k < |incoming| == |next| && NonDecreasing(next) && NumbersRise(incoming)
    requires Standing(dedup.ids, dedup.blocks, incoming, mapped, next, before, parse, k)
    modifies dedup
    ensures ok ==> Standing(dedup.ids, dedup.blocks, incoming, mapped + [m], next, before + [ids], parse, k + 1)
    ensures !ok ==> AllMapped(incoming, mapped, next, before + [ids], parse)
    ensures !ok ==> Stopped(incoming, mapped, next, before + [ids], parse)
  {
    ghost var seen := if k == 0 then 0 else next[k - 1];
    m, ok, ids := EvictAndMap(incoming, mapped, seen, k, next, dedup, parse, maxWorkers, minBatch);
    if ok {
      AllMappedSnoc(incoming, mapped, next, before, parse, ids, m);
    } else {
      StoppedThere(incoming, mapped, next, before, parse, ids);
    }
  }

  /** The whole run: next[i] is the number of the next block to commit when block i is taken up, which
      the other goroutines only ever raise. Each block is mapped against exactly the IDs that blocks not yet
      committed accepted, and the run ends early exactly at a block that fails against them. */
  method PreProcessBlocks<M>(incoming: seq<Block<M>>, next: seq<nat>, dedup: TxIdDedup, parse: M -> Parsed,
                             maxWorkers: int, minBatch: int)
    returns (mapped: seq<Mapped>, ghost before: seq<set<TxId>>)
    requires |next| == |incoming| && NonDecreasing(next) && NumbersRise(incoming)
    requires dedup.ids == {} && dedup.blocks == []
    modifies dedup
    ensures FreshIds(incoming, mapped, next) && AllMapped(incoming, mapped, next, before, parse)
    ensures |mapped| < |incoming| ==> Stopped(incoming, mapped, next, before, parse)
    ensures |mapped| == |incoming| ==> dedup.Valid()
    ensures |mapped| == |incoming| > 0 ==>
              forall id :: id in dedup.ids <==> id in before[|mapped| - 1] || id in mapped[|mapped| - 1].txIDs
  {
    mapped, before := [], [];
    for k := 0 to |incoming|
      invariant Standing(dedup.ids, dedup.blocks, incoming, mapped, next, before, parse, k)
    {
      ghost var ids;
      var m, ok;
      m, ok, ids := PreProcessBlock(incoming, mapped, before, k, next, dedup, parse, maxWorkers, minBatch);
      before := before + [ids];
      if !ok { return; }
      mapped := mapped + [m];
    }
  }
}
