/** The durable snapshot records and everyone who changes them: validator-committers admitting snapshots
    and committing checkpoints, hashers, and the deletion of clones. Every update locks its row, so each is
    one step; between the steps of one actor anything may happen. */
module SnapshotLifecycle {
  import opened Common

  type TxId = string
  type Clone = string
  type Digest = string

  const ABORT: Digest := "abort"

  datatype Status = Pending | InProgress | Failed | Completed | Checkpointed | Aborted

  datatype TxRef = TxRef(id: TxId, blockNum: nat)

  /** A checkpoint key, by the block it names and the superfluous zero bytes that lead its payload: these two
      determine its bytes and are determined by them (Encoding.KeysOfBlock). */
  datatype Key = Key(blockNum: nat, zeros: nat)

  datatype Checkpoint = Checkpoint(key: Key, value: Digest)

  datatype Record = Record(blockNum: nat, status: Status, hash: Option<Digest>, hasClone: bool, error: string)

  /** The records, and which one is the latest. */
  datatype Store = Store(records: map<TxId, Record>, latest: Option<TxId>)

  predicate Terminal(s: Status) {
    s.Checkpointed? || s.Aborted?
  }

  function Latest(st: Store): Option<Record> {
    if st.latest.Some? && st.latest.value in st.records then Some(st.records[st.latest.value]) else None
  }

  // ---------------------------------------------------------------------
  // Decisions.

  datatype Admission = Admit | RejectNoCheckpoint | RejectInProgress

  function DetermineSnapshotStatus(r: Option<Record>): Admission {
    if r.None? then Admit
    else match r.value.status
      case Checkpointed => Admit
      case Aborted => Admit
      case Completed => RejectNoCheckpoint
      case _ => RejectInProgress
  }

  datatype Verdict = Verified | NoSuchSnapshot | Hold | Halt

  function TerminalStatus(value: Digest): (s: Status)
    ensures Terminal(s)
  {
    if value == ABORT then Aborted else Checkpointed
  }

  function VerifyCheckpoint(r: Option<Record>, blockNum: nat, value: Digest): Verdict {
    if r.None? || r.value.blockNum != blockNum || Terminal(r.value.status) then NoSuchSnapshot
    else if TerminalStatus(value) == Aborted then Verified
    else if r.value.hash.None? then Hold
    else if r.value.hash == Some(value) then Verified
    else Halt
  }

  predicate NeedsHash(s: Status) {
    s.Pending? || s.InProgress? || s.Failed?
  }

  // ---------------------------------------------------------------------
  // Updates of the locked row.

  /** SnapshotStateManager.Update: refused unless the status is one of those expected. No digest keeps the
      hash. */
  function Update(st: Store, id: TxId, expected: set<Status>, status: Status, digest: Option<Digest>,
                  error: string): Store {
    if id in st.records && st.records[id].status in expected then
      var r := st.records[id];
      var hash := if digest.Some? then digest else r.hash;
      st.(records := st.records[id := r.(status := status, hash := hash, error := error)])
    else st
  }

  /** MarkSnapshotTerminalInTx, or None when it fails the transaction it is part of. */
  function MarkTerminal(st: Store, blockNum: nat, target: Status): Option<Store> {
    var r := Latest(st);
    if r.None? then None
    else if r.value.status == target then Some(st)
    else if Terminal(r.value.status) || r.value.blockNum != blockNum then None
    else Some(st.(records := st.records[st.latest.value := r.value.(status := target)]))
  }

  // ---------------------------------------------------------------------
  // Actors.

  /** A validator-committer at work on a snapshot transaction or on a checkpoint. id is the record it read. */
  datatype Vc =
    | Free
    | Holding(ref: TxRef)
    | Admitted(ref: TxRef)
    | Cleared(ref: TxRef)
    | Cloned(ref: TxRef)
    | Refused(ref: TxRef)
    | Accepted(cp: Checkpoint, id: TxId)
    | Diverged(id: TxId, status: Status)

  datatype Job =
    | Resting
    | Picked(id: TxId, status: Status)
    | Scanning(id: TxId)
    | Hashed(id: TxId, digest: Digest)
    | HashFailed(id: TxId)

  /** submitted are all snapshot transactions so far, current the one that may be in flight, decided the
      IDs in the status table. clones are the databases there are, dropped those that were deleted, and
      origins what each held when it was first made. keys are the checkpoint keys written, each with the
      snapshot it was verified against; closed is the checkpoint that closed a snapshot. */
  datatype State = State(
    store: Store, decided: set<TxId>, submitted: set<TxRef>, current: Option<TxRef>,
    clones: map<TxId, Clone>, origins: map<TxId, Clone>, dropped: set<TxId>,
    keys: map<Key, TxId>, closed: map<TxId, Checkpoint>, vcs: seq<Vc>, jobs: seq<Job>)

  datatype Event =
    | Submit(ref: TxRef) | Take(v: nat) | Gate(v: nat) | Recheck(v: nat) | Create(v: nat, clone: Clone) | Commit(v: nat)
    | Abandon(v: nat)
    | Verify(v: nat, cp: Checkpoint) | Diagnose(v: nat, reason: string) | CommitCheckpoint(v: nat)
    | Poll(j: nat) | MarkInProgress(j: nat) | Scan(j: nat) | ScanFails(j: nat) | Publish(j: nat)
    | RecordFailure(j: nat, reason: string)
    | Crash(j: nat)
    | Drop(id: TxId) | ClearName(id: TxId)

  /** A snapshot transaction is alone in flight: the next one is submitted when the status table knows the
      one before. Every block has at most one. */
  ghost predicate MaySubmit(s: State, ref: TxRef) {
    && (s.current.Some? ==> s.current == Some(ref) || s.current.value.id in s.decided)
    && forall r :: r in s.submitted && r.blockNum == ref.blockNum ==> r == ref
  }

  ghost predicate Enabled(s: State, e: Event) {
    match e
    case Submit(ref) => MaySubmit(s, ref)
    case Take(v) => v < |s.vcs| && s.vcs[v].Free? && s.current.Some?
    case Gate(v) => v < |s.vcs| && s.vcs[v].Holding?
    case Recheck(v) => v < |s.vcs| && s.vcs[v].Admitted?
    case Create(v, _) => v < |s.vcs| && s.vcs[v].Cleared?
    case Commit(v) => v < |s.vcs| && (s.vcs[v].Cloned? || s.vcs[v].Refused?)
    case Abandon(v) => v < |s.vcs|
    case Verify(v, _) => v < |s.vcs| && s.vcs[v].Free?
    case Diagnose(v, _) => v < |s.vcs| && s.vcs[v].Diverged?
    case CommitCheckpoint(v) => v < |s.vcs| && s.vcs[v].Accepted?
    case Poll(j) => j < |s.jobs| && s.jobs[j].Resting?
    case MarkInProgress(j) => j < |s.jobs| && s.jobs[j].Picked?
    case Scan(j) => j < |s.jobs| && s.jobs[j].Scanning? && s.jobs[j].id in s.clones
    case ScanFails(j) => j < |s.jobs| && s.jobs[j].Scanning?
    case Publish(j) => j < |s.jobs| && s.jobs[j].Hashed?
    case RecordFailure(j, _) => j < |s.jobs| && s.jobs[j].HashFailed?
    case Crash(j) => j < |s.jobs|
    case Drop(id) => id in s.store.records && s.store.records[id].hasClone && Terminal(s.store.records[id].status)
    case ClearName(id) => id in s.dropped && id in s.store.records && Terminal(s.store.records[id].status)
  }

  function SetVc(s: State, v: nat, vc: Vc): State
    requires v < |s.vcs|
  {
    s.(vcs := s.vcs[v := vc])
  }

  function SetJob(s: State, j: nat, job: Job): State
    requires j < |s.jobs|
  {
    s.(jobs := s.jobs[j := job])
  }

  function CommitStep(s: State, v: nat): (s': State)
    requires v < |s.vcs| && (s.vcs[v].Cloned? || s.vcs[v].Refused?)
    ensures s' == s.(vcs := s'.vcs, store := s'.store, decided := s'.decided)
    ensures |s'.vcs| == |s.vcs| && s'.vcs == s.vcs[v := s'.vcs[v]]
  {
    var ref, now := s.vcs[v].ref, SetVc(s, v, Free);
    if ref.id in s.decided then now
    else if s.vcs[v].Refused? then now.(decided := s.decided + {ref.id})
    else now.(decided := s.decided + {ref.id},
              store := Store(s.store.records[ref.id := Record(ref.blockNum, Pending, None, true, "")], Some(ref.id)))
  }

  function CreateStep(s: State, v: nat, clone: Clone): (s': State)
    requires v < |s.vcs| && s.vcs[v].Cleared?
    ensures s' == s.(vcs := s'.vcs, clones := s'.clones, origins := s'.origins)
    ensures |s'.vcs| == |s.vcs| && s'.vcs == s.vcs[v := s'.vcs[v]]
  {
    var id, now := s.vcs[v].ref.id, SetVc(s, v, Cloned(s.vcs[v].ref));
    if id in s.clones then now
    else now.(clones := s.clones[id := clone], origins := if id in s.origins then s.origins else s.origins[id := clone])
  }

  function VerifyStep(s: State, v: nat, cp: Checkpoint): (s': State)
    requires v < |s.vcs|
    ensures s' == s.(vcs := s'.vcs)
    ensures |s'.vcs| == |s.vcs| && s'.vcs == s.vcs[v := s'.vcs[v]]
  {
    match VerifyCheckpoint(Latest(s.store), cp.key.blockNum, cp.value)
    case Verified => SetVc(s, v, Accepted(cp, s.store.latest.value))
    case Halt => SetVc(s, v, Diverged(s.store.latest.value, Latest(s.store).value.status))
    case _ => s
  }

  datatype Outcome = KeyTaken | GuardFails | Written

  /** A key already written is a conflict, and the checkpoint is aborted. */
  function OutcomeOf(s: State, v: nat): Outcome
    requires v < |s.vcs| && s.vcs[v].Accepted?
  {
    var cp := s.vcs[v].cp;
    if cp.key in s.keys then KeyTaken
    else if MarkTerminal(s.store, cp.key.blockNum, TerminalStatus(cp.value)).None? then GuardFails
    else Written
  }

  function CheckpointStep(s: State, v: nat): (s': State)
    requires v < |s.vcs| && s.vcs[v].Accepted?
    ensures s' == s.(vcs := s'.vcs, store := s'.store, keys := s'.keys, closed := s'.closed)
    ensures |s'.vcs| == |s.vcs| && s'.vcs == s.vcs[v := s'.vcs[v]]
  {
    var cp, now := s.vcs[v].cp, SetVc(s, v, Free);
    if !OutcomeOf(s, v).Written? then now else
    var st := MarkTerminal(s.store, cp.key.blockNum, TerminalStatus(cp.value)).value;
    var written := now.(keys := s.keys[cp.key := s.vcs[v].id]);
    if st == s.store then written else written.(store := st, closed := s.closed[s.store.latest.value := cp])
  }

  function PollStep(s: State, j: nat): (s': State)
    requires j < |s.jobs|
    ensures s' == s.(jobs := s'.jobs)
    ensures |s'.jobs| == |s.jobs| && s'.jobs == s.jobs[j := s'.jobs[j]]
  {
    var r := Latest(s.store);
    if r.Some? && NeedsHash(r.value.status) && r.value.hasClone then
      SetJob(s, j, Picked(s.store.latest.value, r.value.status))
    else s
  }

  function MarkStep(s: State, j: nat): (s': State)
    requires j < |s.jobs| && s.jobs[j].Picked?
    ensures s' == s.(jobs := s'.jobs, store := s'.store)
    ensures |s'.jobs| == |s.jobs| && s'.jobs == s.jobs[j := s'.jobs[j]]
  {
    var id := s.jobs[j].id;
    if s.jobs[j].status.InProgress? then SetJob(s, j, Scanning(id))
    else if id in s.store.records && NeedsHash(s.store.records[id].status) then
      SetJob(s, j, Scanning(id)).(store := Update(s.store, id, {Pending, InProgress, Failed}, InProgress, None, ""))
    else SetJob(s, j, Resting)
  }

  function EndJob(s: State, j: nat, status: Status, d: Option<Digest>, error: string): (s': State)
    requires j < |s.jobs| && (s.jobs[j].Hashed? || s.jobs[j].HashFailed?)
    ensures s' == s.(jobs := s'.jobs, store := s'.store)
    ensures |s'.jobs| == |s.jobs| && s'.jobs == s.jobs[j := s'.jobs[j]]
  {
    SetJob(s, j, Resting).(store := Update(s.store, s.jobs[j].id, {InProgress}, status, d, error))
  }

  function Step(s: State, digest: Clone -> Digest, e: Event): State
    requires Enabled(s, e)
  {
    match e
    case Submit(ref) => s.(current := Some(ref), submitted := s.submitted + {ref})
    case Take(v) => SetVc(s, v, Holding(s.current.value))
    case Gate(v) =>
      var ref := s.vcs[v].ref;
      if ref.id in s.decided then SetVc(s, v, Free)
      else if DetermineSnapshotStatus(Latest(s.store)).Admit? then SetVc(s, v, Admitted(ref))
      else SetVc(s, v, Refused(ref))
    case Recheck(v) =>
      var ref := s.vcs[v].ref;
      SetVc(s, v, if ref.id in s.decided then Cloned(ref) else Cleared(ref))
    case Create(v, clone) => CreateStep(s, v, clone)
    case Commit(v) => CommitStep(s, v)
    case Abandon(v) => SetVc(s, v, Free)
    case Verify(v, cp) => VerifyStep(s, v, cp)
    case Diagnose(v, reason) =>
      var vc := s.vcs[v];
      SetVc(s, v, Free).(store := Update(s.store, vc.id, {vc.status}, vc.status, None, reason))
    case CommitCheckpoint(v) => CheckpointStep(s, v)
    case Poll(j) => PollStep(s, j)
    case MarkInProgress(j) => MarkStep(s, j)
    case Scan(j) => SetJob(s, j, Hashed(s.jobs[j].id, digest(s.clones[s.jobs[j].id])))
    case ScanFails(j) => SetJob(s, j, HashFailed(s.jobs[j].id))
    case Publish(j) => EndJob(s, j, Completed, Some(s.jobs[j].digest), "")
    case RecordFailure(j, reason) => EndJob(s, j, Failed, None, reason)
    case Crash(j) => SetJob(s, j, Resting)
    case Drop(id) => s.(clones := s.clones - {id}, dropped := s.dropped + {id})
    case ClearName(id) =>
      s.(store := s.store.(records := s.store.records[id := s.store.records[id].(hasClone := false)]))
  }

  ghost predicate Init(s: State) {
    && s.store == Store(map[], None) && s.decided == {} && s.submitted == {} && s.current.None?
    && s.clones == map[] && s.origins == map[] && s.dropped == {} && s.keys == map[] && s.closed == map[]
    && (forall v :: 0 <= v < |s.vcs| ==> s.vcs[v].Free?) && (forall j :: 0 <= j < |s.jobs| ==> s.jobs[j].Resting?)
  }

  // ---------------------------------------------------------------------
  // Invariants.

  predicate NoneActive(st: Store) {
    Latest(st).Some? ==> Terminal(Latest(st).value.status)
  }

  /** Only the latest snapshot may be open. */
  ghost predicate OneActive(st: Store) {
    && (st.latest.Some? ==> st.latest.value in st.records) && (st.latest.None? ==> st.records == map[])
    && forall id :: id in st.records && !Terminal(st.records[id].status) ==> st.latest == Some(id)
  }

  predicate Closed(st: Store, id: TxId) {
    id in st.records && Terminal(st.records[id].status)
  }

  /** A hash is the digest of the clone and comes with a status that no hasher leaves. A terminal status is
      the one named by the checkpoint that closed the snapshot, whose key names its block and is written. */
  predicate HashOk(s: State, digest: Clone -> Digest, id: TxId)
    requires id in s.store.records
  {
    var r := s.store.records[id];
    && id in s.origins
    && (r.hash.Some? ==> (r.status.Completed? || Terminal(r.status)) && r.hash.value == digest(s.origins[id]))
    && (r.status.Completed? ==> r.hash.Some?) && (Terminal(r.status) || r.hasClone)
    && (Terminal(r.status) ==> id in s.closed && ClosedBy(s, r, s.closed[id]))
  }

  predicate ClosedBy(s: State, r: Record, cp: Checkpoint) {
    && cp.key in s.keys && cp.key.blockNum == r.blockNum && r.status == TerminalStatus(cp.value)
    && (r.status.Checkpointed? ==> r.hash == Some(cp.value))
  }

  ghost predicate RecordsInv(s: State, digest: Clone -> Digest) {
    && OneActive(s.store)
    && (forall id :: id in s.store.records ==> HashOk(s, digest, id))
    && (forall id :: id in s.store.records ==>
          id in s.decided && TxRef(id, s.store.records[id].blockNum) in s.submitted)
    && (forall a, b :: a in s.submitted && b in s.submitted && a.blockNum == b.blockNum ==> a == b)
    && (s.current.Some? ==> s.current.value in s.submitted)
  }

  /** Until a snapshot is closed, its database is there and holds what it was made with. */
  ghost predicate ClonesInv(s: State) {
    && s.clones.Keys <= s.origins.Keys
    && (forall id :: id in s.origins && !Closed(s.store, id) ==> id in s.clones && s.clones[id] == s.origins[id])
    && (forall id :: id in s.origins && id !in s.clones ==> id in s.dropped)
  }

  /** A key is written only for a snapshot that is closed. */
  ghost predicate KeysInv(st: Store, keys: map<Key, TxId>) {
    forall key :: key in keys ==> Closed(st, keys[key]) && st.records[keys[key]].blockNum == key.blockNum
  }

  ghost predicate VcOk(s: State, vc: Vc) {
    match vc
    case Free => true
    case Holding(ref) => ref.id in s.decided || s.current == Some(ref)
    case Refused(ref) => ref.id in s.decided || s.current == Some(ref)
    case Admitted(ref) => ref.id in s.decided || (s.current == Some(ref) && NoneActive(s.store))
    case Cleared(ref) => ref.id in s.decided || (s.current == Some(ref) && NoneActive(s.store))
    case Cloned(ref) => ref.id in s.decided || (s.current == Some(ref) && NoneActive(s.store) && ref.id in s.origins)
    case Accepted(cp, id) =>
      && id in s.store.records && s.store.records[id].blockNum == cp.key.blockNum
      && (TerminalStatus(cp.value).Checkpointed? ==> s.store.records[id].hash == Some(cp.value))
    case Diverged(id, _) => id in s.store.records
  }

  ghost predicate JobOk(s: State, digest: Clone -> Digest, job: Job) {
    match job
    case Hashed(id, d) => id in s.origins && (Closed(s.store, id) || d == digest(s.origins[id]))
    case _ => true
  }

  ghost predicate Inv(s: State, digest: Clone -> Digest) {
    && RecordsInv(s, digest) && ClonesInv(s) && KeysInv(s.store, s.keys)
    && (forall v :: 0 <= v < |s.vcs| ==> VcOk(s, s.vcs[v]))
    && (forall j :: 0 <= j < |s.jobs| ==> JobOk(s, digest, s.jobs[j]))
  }

  // ---------------------------------------------------------------------
  // What no step undoes.

  predicate Later(r: Record, r': Record) {
    && r'.blockNum == r.blockNum
    && (Terminal(r.status) ==> r'.status == r.status)
    && (r.hash.Some? ==> r'.hash == r.hash)
  }

  ghost predicate StoreLater(st: Store, st': Store) {
    forall id :: id in st.records ==> id in st'.records && Later(st.records[id], st'.records[id])
  }

  ghost predicate Evolves(s: State, s': State) {
    && StoreLater(s.store, s'.store)
    && s.decided <= s'.decided && (forall id :: id in s.origins ==> id in s'.origins && s'.origins[id] == s.origins[id])
    && (s.current.Some? ==> s'.current == s.current || s.current.value.id in s'.decided)
    && (NoneActive(s.store) ==> NoneActive(s'.store) || (s.current.Some? && s.current.value.id in s'.decided))
  }

  lemma OthersKept(s: State, s': State, digest: Clone -> Digest)
    requires Evolves(s, s')
    ensures forall vc :: VcOk(s, vc) ==> VcOk(s', vc)
    ensures forall job :: JobOk(s, digest, job) ==> JobOk(s', digest, job)
  {
    forall vc | VcOk(s, vc) ensures VcOk(s', vc) {
      if vc.Accepted? || vc.Diverged? { assert Later(s.store.records[vc.id], s'.store.records[vc.id]); }
    }
    forall job | JobOk(s, digest, job) ensures JobOk(s', digest, job) {
      if job.Hashed? && Closed(s.store, job.id) { assert Later(s.store.records[job.id], s'.store.records[job.id]); }
    }
  }

  /** A step that leaves the records, what clones were made with, the keys and the status table alone. */
  lemma QuietEvolves(s: State, s': State, digest: Clone -> Digest)
    requires RecordsInv(s, digest)
    requires s'.store == s.store && s'.decided == s.decided && s'.submitted == s.submitted && s'.current == s.current
    requires s'.origins == s.origins && s'.keys == s.keys && s'.closed == s.closed
    ensures RecordsInv(s', digest) && Evolves(s, s')
  {
    forall id | id in s'.store.records ensures HashOk(s', digest, id) { assert HashOk(s, digest, id); }
  }

  lemma SubmitEvolves(s: State, digest: Clone -> Digest, ref: TxRef)
    requires RecordsInv(s, digest) && MaySubmit(s, ref)
    ensures var s' := Step(s, digest, Submit(ref)); RecordsInv(s', digest) && Evolves(s, s')
  {
    var s' := Step(s, digest, Submit(ref));
    forall id | id in s'.store.records ensures HashOk(s', digest, id) { assert HashOk(s, digest, id); }
  }

  lemma CreateEvolves(s: State, digest: Clone -> Digest, v: nat, clone: Clone)
    requires RecordsInv(s, digest) && Enabled(s, Create(v, clone))
    ensures var s' := CreateStep(s, v, clone); RecordsInv(s', digest) && Evolves(s, s')
  {
    var s' := CreateStep(s, v, clone);
    forall id | id in s'.store.records ensures HashOk(s', digest, id) { assert HashOk(s, digest, id); }
  }

  /** A snapshot transaction that commits as one finds nothing open. */
  lemma CommitEvolves(s: State, digest: Clone -> Digest, v: nat)
    requires RecordsInv(s, digest) && Enabled(s, Commit(v)) && VcOk(s, s.vcs[v])
    ensures var s' := CommitStep(s, v); RecordsInv(s', digest) && Evolves(s, s')
    ensures CommitStep(s, v).store != s.store ==> forall id :: id in s.store.records ==>
              Terminal(s.store.records[id].status)
  {
    var ref, s' := s.vcs[v].ref, CommitStep(s, v);
    if s.vcs[v].Cloned? && ref.id !in s.decided {
      assert ref.id !in s.store.records;
      forall id | id in s'.store.records ensures HashOk(s', digest, id) {
        if id != ref.id { assert HashOk(s, digest, id); HashStays(s, s', digest, id); }
      }
    } else {
      forall id | id in s'.store.records ensures HashOk(s', digest, id) { assert HashOk(s, digest, id); }
    }
  }

  /** A record that is left alone stays in order. */
  lemma HashStays(s: State, s': State, digest: Clone -> Digest, id: TxId)
    requires id in s.store.records && HashOk(s, digest, id)
    requires id in s'.store.records && s'.store.records[id] == s.store.records[id]
    requires id in s'.origins && s'.origins[id] == s.origins[id]
    requires s.keys.Keys <= s'.keys.Keys && (id in s.closed ==> id in s'.closed && s'.closed[id] == s.closed[id])
    ensures HashOk(s', digest, id)
  {
  }

  lemma ActiveStays(st: Store, id: TxId, r': Record)
    requires OneActive(st) && id in st.records && Later(st.records[id], r')
    requires Terminal(st.records[id].status) || st.latest == Some(id)
    ensures var st' := st.(records := st.records[id := r']);
            OneActive(st') && StoreLater(st, st') && (NoneActive(st) ==> NoneActive(st'))
  {
  }

  /** An update that Later allows keeps everything else. */
  lemma UpdateEvolves(s: State, s': State, digest: Clone -> Digest, id: TxId, r': Record)
    requires RecordsInv(s, digest) && id in s.store.records && Later(s.store.records[id], r')
    requires s'.store == s.store.(records := s.store.records[id := r']) && s'.decided == s.decided
    requires s'.submitted == s.submitted && s'.current == s.current && s'.origins == s.origins
    requires Terminal(s.store.records[id].status) || s.store.latest == Some(id)
    requires HashOk(s', digest, id) && s.keys.Keys <= s'.keys.Keys
    requires forall x :: x in s.closed && x != id ==> x in s'.closed && s'.closed[x] == s.closed[x]
    ensures RecordsInv(s', digest) && Evolves(s, s')
  {
    ActiveStays(s.store, id, r');
    forall x | x in s'.store.records ensures HashOk(s', digest, x) {
      if x != id {
        assert HashOk(s, digest, x);
        HashStays(s, s', digest, x);
      }
    }
  }

  lemma CasEvolves(s: State, s': State, digest: Clone -> Digest, id: TxId, expected: set<Status>, status: Status,
                   d: Option<Digest>, error: string)
    requires RecordsInv(s, digest)
    requires s'.store == Update(s.store, id, expected, status, d, error) && s'.decided == s.decided
    requires s'.submitted == s.submitted && s'.current == s.current && s'.origins == s.origins
    requires s'.keys == s.keys && s'.closed == s.closed
    requires (d.None? && expected == {status}) || (expected <= {Pending, InProgress, Failed} && !Terminal(status))
    requires d.Some? ==>
               status.Completed? && id in s.origins && (Closed(s.store, id) || d.value == digest(s.origins[id]))
    requires status.Completed? ==> d.Some? || expected == {status}
    ensures RecordsInv(s', digest) && Evolves(s, s')
  {
    if id in s.store.records && s.store.records[id].status in expected {
      assert HashOk(s, digest, id);
      UpdateEvolves(s, s', digest, id, s'.store.records[id]);
    } else {
      QuietEvolves(s, s', digest);
    }
  }

  /** A checkpoint verified against an open snapshot names the latest one. */
  lemma VerifiedIsLatest(s: State, digest: Clone -> Digest, vc: Vc)
    requires RecordsInv(s, digest) && vc.Accepted? && VcOk(s, vc) && Latest(s.store).Some?
    ensures s.store.latest == Some(vc.id) <==> Latest(s.store).value.blockNum == vc.cp.key.blockNum
  {
    var id := s.store.latest.value;
    assert TxRef(id, s.store.records[id].blockNum) in s.submitted && TxRef(vc.id, vc.cp.key.blockNum) in s.submitted;
  }

  /** A committing checkpoint changes no snapshot but the one it was verified against, and that one only to
      the status it names. */
  lemma CheckpointEvolves(s: State, digest: Clone -> Digest, v: nat)
    requires RecordsInv(s, digest) && Enabled(s, CommitCheckpoint(v)) && VcOk(s, s.vcs[v])
    ensures var s' := CheckpointStep(s, v); RecordsInv(s', digest) && Evolves(s, s')
    ensures var s', vc := CheckpointStep(s, v), s.vcs[v];
            s'.store != s.store ==>
              && s.store.latest == Some(vc.id) && !Closed(s.store, vc.id)
              && s'.store == s.store.(records := s.store.records[vc.id :=
                               s.store.records[vc.id].(status := TerminalStatus(vc.cp.value))])
  {
    var s', vc := CheckpointStep(s, v), s.vcs[v];
    if s'.store == s.store {
      forall id | id in s'.store.records ensures HashOk(s', digest, id) { assert HashOk(s, digest, id); }
    } else {
      VerifiedIsLatest(s, digest, vc);
      assert HashOk(s, digest, vc.id);
      UpdateEvolves(s, s', digest, vc.id, s'.store.records[vc.id]);
    }
  }

  lemma ClearNameEvolves(s: State, digest: Clone -> Digest, id: TxId)
    requires RecordsInv(s, digest) && Enabled(s, ClearName(id))
    ensures var s' := Step(s, digest, ClearName(id)); RecordsInv(s', digest) && Evolves(s, s')
  {
    assert HashOk(s, digest, id);
    UpdateEvolves(s, Step(s, digest, ClearName(id)), digest, id, s.store.records[id].(hasClone := false));
  }

  lemma MarkEvolves(s: State, digest: Clone -> Digest, j: nat)
    requires RecordsInv(s, digest) && Enabled(s, MarkInProgress(j))
    ensures RecordsInv(MarkStep(s, j), digest) && Evolves(s, MarkStep(s, j))
  {
    var s', id := MarkStep(s, j), s.jobs[j].id;
    if !s.jobs[j].status.InProgress? && id in s.store.records && NeedsHash(s.store.records[id].status) {
      CasEvolves(s, s', digest, id, {Pending, InProgress, Failed}, InProgress, None, "");
    } else {
      QuietEvolves(s, s', digest);
    }
  }

  lemma PublishEvolves(s: State, digest: Clone -> Digest, j: nat)
    requires RecordsInv(s, digest) && Enabled(s, Publish(j)) && JobOk(s, digest, s.jobs[j])
    ensures var s' := EndJob(s, j, Completed, Some(s.jobs[j].digest), ""); RecordsInv(s', digest) && Evolves(s, s')
  {
    var s' := EndJob(s, j, Completed, Some(s.jobs[j].digest), "");
    CasEvolves(s, s', digest, s.jobs[j].id, {InProgress}, Completed, Some(s.jobs[j].digest), "");
  }

  lemma FailureEvolves(s: State, digest: Clone -> Digest, j: nat, reason: string)
    requires RecordsInv(s, digest) && Enabled(s, RecordFailure(j, reason))
    ensures var s' := EndJob(s, j, Failed, None, reason); RecordsInv(s', digest) && Evolves(s, s')
  {
    CasEvolves(s, EndJob(s, j, Failed, None, reason), digest, s.jobs[j].id, {InProgress}, Failed, None, reason);
  }

  lemma DiagnoseEvolves(s: State, digest: Clone -> Digest, v: nat, reason: string)
    requires RecordsInv(s, digest) && Enabled(s, Diagnose(v, reason))
    ensures var s' := Step(s, digest, Diagnose(v, reason)); RecordsInv(s', digest) && Evolves(s, s')
  {
    var vc := s.vcs[v];
    CasEvolves(s, Step(s, digest, Diagnose(v, reason)), digest, vc.id, {vc.status}, vc.status, None, reason);
  }

  /** A step of a single actor: it changes itself and nothing shared. */
  predicate OwnStep(e: Event) {
    e.Take? || e.Gate? || e.Recheck? || e.Abandon? || e.Verify? || e.Poll? || e.Scan? || e.ScanFails? || e.Crash?
  }

  lemma OwnStepFrame(s: State, digest: Clone -> Digest, e: Event)
    requires Enabled(s, e) && OwnStep(e)
    ensures Step(s, digest, e) == s.(vcs := Step(s, digest, e).vcs, jobs := Step(s, digest, e).jobs)
  {
  }

  lemma OtherEvolves(s: State, digest: Clone -> Digest, e: Event)
    requires RecordsInv(s, digest) && Enabled(s, e) && (OwnStep(e) || e.Drop?)
    ensures RecordsInv(Step(s, digest, e), digest) && Evolves(s, Step(s, digest, e))
  {
    if OwnStep(e) { OwnStepFrame(s, digest, e); }
    QuietEvolves(s, Step(s, digest, e), digest);
  }

  lemma StepEvolves(s: State, digest: Clone -> Digest, e: Event)
    requires Inv(s, digest) && Enabled(s, e)
    ensures RecordsInv(Step(s, digest, e), digest) && Evolves(s, Step(s, digest, e))
  {
    match e
    case Submit(ref) => SubmitEvolves(s, digest, ref);
    case Create(v, clone) => CreateEvolves(s, digest, v, clone);
    case Commit(v) => CommitEvolves(s, digest, v);
    case CommitCheckpoint(v) => CheckpointEvolves(s, digest, v);
    case Diagnose(v, reason) => DiagnoseEvolves(s, digest, v, reason);
    case MarkInProgress(j) => MarkEvolves(s, digest, j);
    case Publish(j) => PublishEvolves(s, digest, j);
    case RecordFailure(j, reason) => FailureEvolves(s, digest, j, reason);
    case ClearName(id) => ClearNameEvolves(s, digest, id);
    case _ => OtherEvolves(s, digest, e);
  }

  lemma ClosedStays(st: Store, st': Store, id: TxId)
    requires StoreLater(st, st') && Closed(st, id)
    ensures Closed(st', id) && st'.records[id].blockNum == st.records[id].blockNum
  {
    assert Later(st.records[id], st'.records[id]);
  }

  /** Only creating and dropping a database touch the databases. */
  lemma ClonesFrame(s: State, digest: Clone -> Digest, e: Event)
    requires Enabled(s, e) && !e.Create? && !e.Drop?
    ensures var s' := Step(s, digest, e); s'.clones == s.clones && s'.origins == s.origins && s'.dropped == s.dropped
  {
    if OwnStep(e) { OwnStepFrame(s, digest, e); }
  }

  lemma ClonesStay(s: State, s': State)
    requires ClonesInv(s) && StoreLater(s.store, s'.store)
    requires s'.clones == s.clones && s'.origins == s.origins && s'.dropped == s.dropped
    ensures ClonesInv(s')
  {
    forall id | id in s'.origins && !Closed(s'.store, id) ensures id in s'.clones && s'.clones[id] == s'.origins[id] {
      if Closed(s.store, id) { ClosedStays(s.store, s'.store, id); }
    }
  }

  lemma CreateKeepsClones(s: State, v: nat, clone: Clone)
    requires ClonesInv(s) && Enabled(s, Create(v, clone))
    ensures ClonesInv(CreateStep(s, v, clone))
  {
  }

  lemma DropKeepsClones(s: State, digest: Clone -> Digest, id: TxId)
    requires ClonesInv(s) && Enabled(s, Drop(id))
    ensures ClonesInv(Step(s, digest, Drop(id)))
  {
  }

  lemma ClonesKept(s: State, digest: Clone -> Digest, e: Event)
    requires ClonesInv(s) && Enabled(s, e) && StoreLater(s.store, Step(s, digest, e).store)
    ensures ClonesInv(Step(s, digest, e))
  {
    if e.Create? {
      CreateKeepsClones(s, e.v, e.clone);
    } else if e.Drop? {
      DropKeepsClones(s, digest, e.id);
    } else {
      ClonesFrame(s, digest, e);
      ClonesStay(s, Step(s, digest, e));
    }
  }

  /** Only committing a checkpoint touches the keys and what closed a snapshot. */
  lemma KeysFrame(s: State, digest: Clone -> Digest, e: Event)
    requires Enabled(s, e) && !e.CommitCheckpoint?
    ensures Step(s, digest, e).keys == s.keys && Step(s, digest, e).closed == s.closed
  {
    if OwnStep(e) { OwnStepFrame(s, digest, e); }
  }

  lemma KeysStay(st: Store, st': Store, keys: map<Key, TxId>)
    requires KeysInv(st, keys) && StoreLater(st, st')
    ensures KeysInv(st', keys)
  {
    forall key | key in keys ensures Closed(st', keys[key]) && st'.records[keys[key]].blockNum == key.blockNum {
      ClosedStays(st, st', keys[key]);
    }
  }

  lemma CheckpointWrites(s: State, v: nat)
    requires Enabled(s, CommitCheckpoint(v))
    ensures CheckpointStep(s, v).keys ==
            if OutcomeOf(s, v).Written? then s.keys[s.vcs[v].cp.key := s.vcs[v].id] else s.keys
  {
  }

  lemma WrittenIsClosed(s: State, digest: Clone -> Digest, v: nat)
    requires RecordsInv(s, digest) && Enabled(s, CommitCheckpoint(v)) && VcOk(s, s.vcs[v]) && OutcomeOf(s, v).Written?
    ensures var s', vc := CheckpointStep(s, v), s.vcs[v];
            Closed(s'.store, vc.id) && s'.store.records[vc.id].blockNum == vc.cp.key.blockNum
  {
    var vc := s.vcs[v];
    VerifiedIsLatest(s, digest, vc);
  }

  lemma CheckpointKeepsKeys(s: State, digest: Clone -> Digest, v: nat)
    requires RecordsInv(s, digest) && KeysInv(s.store, s.keys) && Enabled(s, CommitCheckpoint(v)) && VcOk(s, s.vcs[v])
    requires StoreLater(s.store, CheckpointStep(s, v).store)
    ensures KeysInv(CheckpointStep(s, v).store, CheckpointStep(s, v).keys)
  {
    KeysStay(s.store, CheckpointStep(s, v).store, s.keys);
    CheckpointWrites(s, v);
    if OutcomeOf(s, v).Written? { WrittenIsClosed(s, digest, v); }
  }

  lemma KeysKept(s: State, digest: Clone -> Digest, e: Event)
    requires Inv(s, digest) && Enabled(s, e) && StoreLater(s.store, Step(s, digest, e).store)
    ensures KeysInv(Step(s, digest, e).store, Step(s, digest, e).keys)
  {
    if e.CommitCheckpoint? {
      CheckpointKeepsKeys(s, digest, e.v);
    } else {
      KeysFrame(s, digest, e);
      KeysStay(s.store, Step(s, digest, e).store, s.keys);
    }
  }

  lemma StepKeepsInv(s: State, digest: Clone -> Digest, e: Event)
    requires Inv(s, digest) && Enabled(s, e)
    ensures Inv(Step(s, digest, e), digest)
  {
    StepEvolves(s, digest, e);
    ClonesKept(s, digest, e);
    KeysKept(s, digest, e);
    ActorKept(s, digest, e);
  }

  predicate VcStep(e: Event) {
    || e.Take? || e.Gate? || e.Recheck? || e.Create? || e.Commit? || e.Abandon? || e.Verify? || e.Diagnose?
    || e.CommitCheckpoint?
  }

  lemma OthersStep(s: State, digest: Clone -> Digest, e: Event)
    requires Enabled(s, e) && !VcStep(e)
    ensures Step(s, digest, e).vcs == s.vcs
  {
  }

  lemma OneVcSteps(s: State, digest: Clone -> Digest, e: Event)
    requires Enabled(s, e) && VcStep(e)
    ensures e.v < |s.vcs| && |Step(s, digest, e).vcs| == |s.vcs|
    ensures Step(s, digest, e).vcs == s.vcs[e.v := Step(s, digest, e).vcs[e.v]]
    ensures e.Commit? || e.Abandon? || e.Diagnose? || e.CommitCheckpoint? ==> Step(s, digest, e).vcs[e.v].Free?
  {
  }

  /** A validator-committer that did not become free took the step itself. */
  lemma VcFrame(s: State, digest: Clone -> Digest, e: Event, v: nat)
    requires Enabled(s, e) && v < |s.vcs|
    ensures var s' := Step(s, digest, e);
            && |s'.vcs| == |s.vcs|
            && (s'.vcs[v] != s.vcs[v] && !s'.vcs[v].Free? ==>
                  (e.Take? || e.Gate? || e.Recheck? || e.Create? || e.Verify?) && e.v == v)
  {
    if VcStep(e) { OneVcSteps(s, digest, e); } else { OthersStep(s, digest, e); }
  }

  lemma JobFrame(s: State, digest: Clone -> Digest, e: Event, j: nat)
    requires Enabled(s, e) && j < |s.jobs|
    ensures var s' := Step(s, digest, e);
            && |s'.jobs| == |s.jobs|
            && (s'.jobs[j] != s.jobs[j] && s'.jobs[j].Hashed? ==> e == Scan(j))
  {
  }

  lemma GateActor(s: State, digest: Clone -> Digest, v: nat)
    requires Enabled(s, Gate(v)) && VcOk(s, s.vcs[v])
    ensures VcOk(Step(s, digest, Gate(v)), Step(s, digest, Gate(v)).vcs[v])
  {
  }

  lemma RecheckActor(s: State, digest: Clone -> Digest, v: nat)
    requires Enabled(s, Recheck(v)) && VcOk(s, s.vcs[v])
    ensures VcOk(Step(s, digest, Recheck(v)), Step(s, digest, Recheck(v)).vcs[v])
  {
  }

  lemma CreateActor(s: State, v: nat, clone: Clone)
    requires Enabled(s, Create(v, clone)) && VcOk(s, s.vcs[v]) && s.clones.Keys <= s.origins.Keys
    ensures VcOk(CreateStep(s, v, clone), CreateStep(s, v, clone).vcs[v])
  {
  }

  lemma VerifyActor(s: State, v: nat, cp: Checkpoint)
    requires v < |s.vcs| && s.vcs[v].Free?
    ensures VcOk(VerifyStep(s, v, cp), VerifyStep(s, v, cp).vcs[v])
  {
  }

  /** Whoever took the step is left in order too. */
  lemma VcKept(s: State, digest: Clone -> Digest, e: Event, v: nat)
    requires Enabled(s, e) && v < |s.vcs| && VcOk(s, s.vcs[v]) && ClonesInv(s)
    requires VcOk(s, s.vcs[v]) ==> VcOk(Step(s, digest, e), s.vcs[v])
    ensures |Step(s, digest, e).vcs| == |s.vcs| && VcOk(Step(s, digest, e), Step(s, digest, e).vcs[v])
  {
    var s' := Step(s, digest, e);
    VcFrame(s, digest, e, v);
    if s'.vcs[v] != s.vcs[v] && !s'.vcs[v].Free? {
      if e.Gate? { GateActor(s, digest, v); }
      if e.Recheck? { RecheckActor(s, digest, v); }
      if e.Create? { CreateActor(s, v, e.clone); }
      if e.Verify? { VerifyActor(s, v, e.cp); }
    }
  }

  lemma JobKept(s: State, digest: Clone -> Digest, e: Event, j: nat)
    requires Enabled(s, e) && j < |s.jobs| && JobOk(s, digest, s.jobs[j]) && ClonesInv(s)
    requires JobOk(s, digest, s.jobs[j]) ==> JobOk(Step(s, digest, e), digest, s.jobs[j])
    ensures |Step(s, digest, e).jobs| == |s.jobs| && JobOk(Step(s, digest, e), digest, Step(s, digest, e).jobs[j])
  {
    JobFrame(s, digest, e, j);
  }

  lemma ActorKept(s: State, digest: Clone -> Digest, e: Event)
    requires Inv(s, digest) && Enabled(s, e) && Evolves(s, Step(s, digest, e))
    ensures var s' := Step(s, digest, e);
            && (forall v :: 0 <= v < |s'.vcs| ==> VcOk(s', s'.vcs[v]))
            && (forall j :: 0 <= j < |s'.jobs| ==> JobOk(s', digest, s'.jobs[j]))
  {
    var s' := Step(s, digest, e);
    OthersKept(s, s', digest);
    if |s.vcs| > 0 { VcFrame(s, digest, e, 0); }
    if |s.jobs| > 0 { JobFrame(s, digest, e, 0); }
    forall v | 0 <= v < |s.vcs| ensures VcOk(s', s'.vcs[v]) { VcKept(s, digest, e, v); }
    forall j | 0 <= j < |s.jobs| ensures JobOk(s', digest, s'.jobs[j]) { JobKept(s, digest, e, j); }
  }

  // ---------------------------------------------------------------------
  // Whole runs.

  ghost predicate Taken(states: seq<State>, digest: Clone -> Digest, events: seq<Event>, i: nat) {
    i < |events| && i + 1 < |states| && Enabled(states[i], events[i]) &&
      states[i + 1] == Step(states[i], digest, events[i])
  }

  ghost predicate Steps(states: seq<State>, digest: Clone -> Digest, events: seq<Event>) {
    |states| == |events| + 1 && forall i :: 0 <= i < |events| ==> Taken(states, digest, events, i)
  }

  ghost predicate Run(states: seq<State>, digest: Clone -> Digest, events: seq<Event>) {
    Steps(states, digest, events) && Init(states[0])
  }

  lemma {:induction false} RunKeepsInv(states: seq<State>, digest: Clone -> Digest, events: seq<Event>, k: nat)
    requires Run(states, digest, events) && k < |states|
    ensures Inv(states[k], digest)
  {
    if k > 0 {
      RunKeepsInv(states, digest, events, k - 1);
      assert Taken(states, digest, events, k - 1);
      StepKeepsInv(states[k - 1], digest, events[k - 1]);
    }
  }

  /** In every state at most one snapshot is open, a published hash is the digest of what the snapshot's
      clone was made with, and a closed snapshot has the status named by the checkpoint that closed it: a
      checkpointed one was closed by a checkpoint of exactly its hash. While a snapshot is open its database
      is there and holds what it was made with. */
  lemma LifecycleSafe(states: seq<State>, digest: Clone -> Digest, events: seq<Event>, k: nat)
    requires Run(states, digest, events) && k < |states|
    ensures var s, records := states[k], states[k].store.records;
            && (forall a, b :: a in records && b in records ==>
                  !Terminal(records[a].status) && !Terminal(records[b].status) ==> a == b)
            && (forall id :: id in records && records[id].hash.Some? ==>
                 id in s.origins && records[id].hash.value == digest(s.origins[id]))
            && (forall id :: id in records && Terminal(records[id].status) ==>
                  id in s.closed && records[id].status == TerminalStatus(s.closed[id].value))
            && (forall id :: id in records && records[id].status.Checkpointed? ==>
                 id in s.closed && records[id].hash == Some(s.closed[id].value))
            && (forall id :: id in records && !Terminal(records[id].status) ==>
                  id in s.origins && id in s.clones && s.clones[id] == s.origins[id])
  {
    RunKeepsInv(states, digest, events, k);
    assert forall id :: id in states[k].store.records ==> HashOk(states[k], digest, id);
  }

  /** From any state to any later one: no record disappears, a terminal status is never left, a published
      hash never changes, and neither does what the clone was made with. */
  lemma {:induction false} NothingUndone(states: seq<State>, digest: Clone -> Digest, events: seq<Event>, i: nat,
                                         k: nat, id: TxId)
    requires Run(states, digest, events) && i <= k < |states| && id in states[i].store.records
    ensures id in states[k].store.records && Later(states[i].store.records[id], states[k].store.records[id])
    ensures id in states[i].origins ==> id in states[k].origins && states[k].origins[id] == states[i].origins[id]
  {
    if i < k {
      NothingUndone(states, digest, events, i, k - 1, id);
      RunKeepsInv(states, digest, events, k - 1);
      assert Taken(states, digest, events, k - 1);
      StepEvolves(states[k - 1], digest, events[k - 1]);
      assert Later(states[k - 1].store.records[id], states[k].store.records[id]);
    }
  }

  /** What the decisions mean in every state. A refused request is told that a checkpoint is missing exactly
      when the open snapshot's hash is published. A checkpoint is held exactly while a hasher would still
      pick the snapshot up, and halts exactly when the clone's digest is published and differs. */
  lemma DecisionsMean(states: seq<State>, digest: Clone -> Digest, events: seq<Event>, k: nat, blockNum: nat,
                      value: Digest)
    requires Run(states, digest, events) && k < |states| && Latest(states[k].store).Some?
    ensures var s, r := states[k], Latest(states[k].store).value;
            && s.store.latest.value in s.origins
            && (DetermineSnapshotStatus(Some(r)).RejectNoCheckpoint? <==> !Terminal(r.status) && r.hash.Some?)
            && (DetermineSnapshotStatus(Some(r)).RejectInProgress? <==> NeedsHash(r.status))
            && (value != ABORT && r.blockNum == blockNum && !Terminal(r.status) ==>
                  var verdict, own := VerifyCheckpoint(Some(r), blockNum, value),
                    digest(s.origins[s.store.latest.value]);
                  && (verdict.Hold? <==> NeedsHash(r.status))
                  && (verdict.Halt? <==> r.status.Completed? && own != value)
                  && (verdict.Verified? <==> r.status.Completed? && own == value))
  {
    RunKeepsInv(states, digest, events, k);
    assert HashOk(states[k], digest, states[k].store.latest.value);
  }

  // ---------------------------------------------------------------------
  // What becomes of a verified checkpoint.

  lemma OutcomeCases(s: State, digest: Clone -> Digest, v: nat)
    requires Inv(s, digest) && Enabled(s, CommitCheckpoint(v))
    ensures var vc := s.vcs[v];
            && vc.id in s.store.records && Latest(s.store).Some?
            && var own, target, latest := s.store.records[vc.id].status, TerminalStatus(vc.cp.value),
                 Latest(s.store).value;
               && (vc.cp.key in s.keys ==> Terminal(own))
               && (!Terminal(own) ==> s.store.latest == Some(vc.id))
               && (MarkTerminal(s.store, vc.cp.key.blockNum, target).None? <==>
                    Terminal(own) && latest.status != target)
  {
    var vc := s.vcs[v];
    assert VcOk(s, vc);
    if vc.cp.key in s.keys {
      var other := s.keys[vc.cp.key];
      assert TxRef(other, s.store.records[other].blockNum) in s.submitted &&
        TxRef(vc.id, vc.cp.key.blockNum) in s.submitted;
    }
    VerifiedIsLatest(s, digest, vc);
  }

  /** What becomes of a verified checkpoint that commits, in terms of the snapshot it was verified against
      and of the latest one. It is written exactly when its snapshot is still open, or when its key is new
      and the latest snapshot already has the status it names. The guard fails it exactly when its key is new,
      its snapshot is closed and the latest one does not have that status. Its own snapshot ends in the
      status it names exactly when it was open or already had it. */
  lemma CheckpointOutcome(states: seq<State>, digest: Clone -> Digest, events: seq<Event>, k: nat)
    requires Run(states, digest, events) && k < |events| && events[k].CommitCheckpoint?
    ensures var s, s', v := states[k], states[k + 1], events[k].v;
            && v < |s.vcs| && s.vcs[v].Accepted? && Latest(s.store).Some?
            && var cp, id := s.vcs[v].cp, s.vcs[v].id;
               && id in s.store.records && id in s'.store.records
               && var own, target, latest := s.store.records[id].status, TerminalStatus(cp.value),
                    Latest(s.store).value.status;
                  && (OutcomeOf(s, v).Written? <==> !Terminal(own) || (cp.key !in s.keys && latest == target))
                  && (OutcomeOf(s, v).GuardFails? <==> cp.key !in s.keys && Terminal(own) && latest != target)
                  && (s'.store.records[id].status == target <==> !Terminal(own) || own == target)
                  && (OutcomeOf(s, v).Written? ==> s'.keys == s.keys[cp.key := id])
                  && (!OutcomeOf(s, v).Written? ==> s'.keys == s.keys && s'.store == s.store)
  {
    RunKeepsInv(states, digest, events, k);
    assert Taken(states, digest, events, k);
    var s, v := states[k], events[k].v;
    OutcomeCases(s, digest, v);
    CheckpointEvolves(s, digest, v);
    assert Later(s.store.records[s.vcs[v].id], states[k + 1].store.records[s.vcs[v].id]);
  }

  /** A verified checkpoint or abort that commits while its snapshot is open closes it. */
  lemma CheckpointCloses(states: seq<State>, digest: Clone -> Digest, events: seq<Event>, k: nat)
    requires Run(states, digest, events) && k < |events| && events[k].CommitCheckpoint?
    ensures var s, s', v := states[k], states[k + 1], events[k].v;
            && v < |s.vcs| && s.vcs[v].Accepted? && s.vcs[v].id in s.store.records && s.vcs[v].id in s'.store.records
            && (!Terminal(s.store.records[s.vcs[v].id].status) ==>
                  s'.store.records[s.vcs[v].id].status == TerminalStatus(s.vcs[v].cp.value))
  {
    CheckpointOutcome(states, digest, events, k);
  }

  /** Every checkpoint writes the shortest key of its block. */
  predicate CanonicalKeys(events: seq<Event>) {
    forall i :: 0 <= i < |events| && events[i].Verify? ==> events[i].cp.key.zeros == 0
  }

  ghost predicate AllCanonical(s: State) {
    && (forall v :: 0 <= v < |s.vcs| && s.vcs[v].Accepted? ==> s.vcs[v].cp.key.zeros == 0)
    && (forall id :: id in s.closed ==> s.closed[id].key.zeros == 0)
  }

  lemma StepCanonical(s: State, digest: Clone -> Digest, e: Event)
    requires Enabled(s, e) && AllCanonical(s) && (e.Verify? ==> e.cp.key.zeros == 0)
    ensures AllCanonical(Step(s, digest, e))
  {
    var s' := Step(s, digest, e);
    if !e.CommitCheckpoint? { KeysFrame(s, digest, e); }
    forall v | 0 <= v < |s'.vcs| && s'.vcs[v].Accepted? ensures s'.vcs[v].cp.key.zeros == 0 {
      if |s.vcs| > 0 { VcFrame(s, digest, e, 0); }
      VcFrame(s, digest, e, v);
    }
  }

  lemma {:induction false} StaysCanonical(states: seq<State>, digest: Clone -> Digest, events: seq<Event>, k: nat)
    requires Run(states, digest, events) && CanonicalKeys(events) && k < |states|
    ensures AllCanonical(states[k])
  {
    if k > 0 {
      StaysCanonical(states, digest, events, k - 1);
      assert Taken(states, digest, events, k - 1);
      StepCanonical(states[k - 1], digest, events[k - 1]);
    }
  }

  /** Then the shared key decides alone: a checkpoint whose snapshot is open is written, any other finds its
      key taken, and the guard behind it never fails. */
  lemma SharedKeyDecides(states: seq<State>, digest: Clone -> Digest, events: seq<Event>, k: nat)
    requires Run(states, digest, events) && CanonicalKeys(events) && k < |events| && events[k].CommitCheckpoint?
    ensures var s, v := states[k], events[k].v;
            && v < |s.vcs| && s.vcs[v].Accepted?
            && OutcomeOf(s, v) == if Closed(s.store, s.vcs[v].id) then KeyTaken else Written
  {
    CheckpointOutcome(states, digest, events, k);
    RunKeepsInv(states, digest, events, k);
    StaysCanonical(states, digest, events, k);
    var s, vc := states[k], states[k].vcs[events[k].v];
    assert VcOk(s, vc) && HashOk(s, digest, vc.id);
  }

  // ---------------------------------------------------------------------
  // Runs that show the conditions are needed.

  lemma Snoc(states: seq<State>, digest: Clone -> Digest, events: seq<Event>, e: Event)
    returns (states': seq<State>, events': seq<Event>)
    requires Steps(states, digest, events) && Enabled(states[|events|], e)
    ensures Steps(states', digest, events') && events' == events + [e] && states'[0] == states[0]
    ensures states'[|events'|] == Step(states[|events|], digest, e)
  {
    states', events' := states + [Step(states[|events|], digest, e)], events + [e];
    forall i | 0 <= i < |events'| ensures Taken(states', digest, events', i) {
      assert i < |events| ==> Taken(states, digest, events, i);
    }
  }

  function Opened(s: State, ref: TxRef, clone: Clone): State {
    s.(store := Store(s.store.records[ref.id := Record(ref.blockNum, Pending, None, true, "")], Some(ref.id)),
       decided := s.decided + {ref.id}, submitted := s.submitted + {ref}, current := Some(ref),
       clones := s.clones[ref.id := clone], origins := s.origins[ref.id := clone])
  }

  lemma OpenSnapshot(states: seq<State>, digest: Clone -> Digest, events: seq<Event>, ref: TxRef, clone: Clone)
    returns (states': seq<State>, events': seq<Event>)
    requires Steps(states, digest, events)
    requires var s := states[|events|];
             && |s.vcs| > 0 && s.vcs[0].Free? && MaySubmit(s, ref) && NoneActive(s.store)
             && ref.id !in s.decided && ref.id !in s.clones && ref.id !in s.origins
    ensures Steps(states', digest, events') && states'[0] == states[0]
    ensures states'[|events'|] == Opened(states[|events|], ref, clone)
  {
    ghost var s := states[|events|];
    states', events' := Snoc(states, digest, events, Submit(ref));
    states', events' := Snoc(states', digest, events', Take(0));
    states', events' := Snoc(states', digest, events', Gate(0));
    states', events' := Snoc(states', digest, events', Recheck(0));
    states', events' := Snoc(states', digest, events', Create(0, clone));
    states', events' := Snoc(states', digest, events', Commit(0));
    assert states'[|events'|].vcs == s.vcs;
  }

  function HashedRecord(s: State, digest: Clone -> Digest, id: TxId): State
    requires id in s.store.records && id in s.clones
  {
    s.(store := s.store.(records := s.store.records[id :=
         s.store.records[id].(status := Completed, hash := Some(digest(s.clones[id])), error := "")]))
  }

  predicate AwaitsHash(r: Record) {
    r.status == Pending || r.status == InProgress || r.status == Failed
  }

  lemma HashSnapshot(states: seq<State>, digest: Clone -> Digest, events: seq<Event>, j: nat)
    returns (states': seq<State>, events': seq<Event>)
    requires Steps(states, digest, events)
    requires var s := states[|events|];
             && j < |s.jobs| && s.jobs[j].Resting? && Latest(s.store).Some? && s.store.latest.value in s.clones
             && AwaitsHash(Latest(s.store).value) && Latest(s.store).value.hasClone
    ensures Steps(states', digest, events') && states'[0] == states[0]
    ensures events' == events + [Poll(j), MarkInProgress(j), Scan(j), Publish(j)]
    ensures states'[|events'|] == HashedRecord(states[|events|], digest, states[|events|].store.latest.value)
  {
    ghost var s := states[|events|];
    states', events' := Snoc(states, digest, events, Poll(j));
    states', events' := Snoc(states', digest, events', MarkInProgress(j));
    states', events' := Snoc(states', digest, events', Scan(j));
    states', events' := Snoc(states', digest, events', Publish(j));
    assert states'[|events'|].jobs == s.jobs;
  }

  /** From every reachable state whose latest snapshot still lacks its hash, whether its hashing never started,
      was interrupted or failed, any resting hasher can complete it: the record gets the digest of the
      snapshot's database, and nothing else changes. */
  lemma HashCompletes(states: seq<State>, digest: Clone -> Digest, events: seq<Event>, j: nat)
    returns (states': seq<State>, events': seq<Event>)
    requires Run(states, digest, events)
    requires var s := states[|events|];
             j < |s.jobs| && s.jobs[j].Resting? && Latest(s.store).Some? && AwaitsHash(Latest(s.store).value)
    ensures Run(states', digest, events') && events' == events + [Poll(j), MarkInProgress(j), Scan(j), Publish(j)]
    ensures var s, s' := states[|events|], states'[|events'|];
            var id := s.store.latest.value;
            && id in s.clones && s' == HashedRecord(s, digest, id)
            && s'.store.records[id].status == Completed && s'.store.records[id].hash == Some(digest(s.clones[id]))
  {
    RunKeepsInv(states, digest, events, |events|);
    assert HashOk(states[|events|], digest, states[|events|].store.latest.value);
    states', events' := HashSnapshot(states, digest, events, j);
  }

  /** A hasher that dies at whatever point of its work loses nothing: after its restart it can complete the
      snapshot. */
  lemma CrashIsHarmless(states: seq<State>, digest: Clone -> Digest, events: seq<Event>, j: nat)
    returns (states': seq<State>, events': seq<Event>)
    requires Run(states, digest, events)
    requires var s := states[|events|];
             j < |s.jobs| && Latest(s.store).Some? && AwaitsHash(Latest(s.store).value)
    ensures Run(states', digest, events')
    ensures events' == events + [Crash(j)] + [Poll(j), MarkInProgress(j), Scan(j), Publish(j)]
    ensures var s, s' := states[|events|], states'[|events'|];
            var id := s.store.latest.value;
            && id in s.clones && id in s'.store.records && s'.store.records[id].status == Completed
            && s'.store.records[id].hash == Some(digest(s.clones[id])) && s'.jobs == s.jobs[j := Resting]
  {
    states', events' := Snoc(states, digest, events, Crash(j));
    states', events' := HashCompletes(states', digest, events', j);
  }

  /** A snapshot transaction that comes while a snapshot is open is refused: it is decided without a record or
      a database. */
  lemma RefusedWhileOpen(states: seq<State>, digest: Clone -> Digest, events: seq<Event>, v: nat)
    returns (states': seq<State>, events': seq<Event>)
    requires Run(states, digest, events)
    requires var s := states[|events|];
             && v < |s.vcs| && s.vcs[v].Free? && s.current.Some? && s.current.value.id !in s.decided
             && Latest(s.store).Some? && !Terminal(Latest(s.store).value.status)
    ensures Run(states', digest, events') && events' == events + [Take(v), Gate(v), Commit(v)]
    ensures states'[|events'|] ==
              states[|events|].(decided := states[|events|].decided + {states[|events|].current.value.id})
  {
    ghost var s := states[|events|];
    states', events' := Snoc(states, digest, events, Take(v));
    states', events' := Snoc(states', digest, events', Gate(v));
    states', events' := Snoc(states', digest, events', Commit(v));
    assert states'[|events'|].vcs == s.vcs;
  }

  function FailedRecord(s: State, id: TxId, reason: string): State
    requires id in s.store.records
  {
    s.(store := s.store.(records := s.store.records[id := s.store.records[id].(status := Failed, error := reason)]))
  }

  lemma FailHash(states: seq<State>, digest: Clone -> Digest, events: seq<Event>, j: nat, reason: string)
    returns (states': seq<State>, events': seq<Event>)
    requires Steps(states, digest, events)
    requires var s := states[|events|];
             && j < |s.jobs| && s.jobs[j].Resting? && Latest(s.store).Some?
             && AwaitsHash(Latest(s.store).value) && Latest(s.store).value.hasClone
    ensures Steps(states', digest, events') && states'[0] == states[0]
    ensures events' == events + [Poll(j), MarkInProgress(j), ScanFails(j), RecordFailure(j, reason)]
    ensures states'[|events'|] == FailedRecord(states[|events|], states[|events|].store.latest.value, reason)
  {
    ghost var s := states[|events|];
    states', events' := Snoc(states, digest, events, Poll(j));
    states', events' := Snoc(states', digest, events', MarkInProgress(j));
    states', events' := Snoc(states', digest, events', ScanFails(j));
    states', events' := Snoc(states', digest, events', RecordFailure(j, reason));
    assert states'[|events'|].jobs == s.jobs;
  }

  /** Or it records that it failed and why, and the snapshot can be hashed again. */
  lemma FailureIsRecorded(states: seq<State>, digest: Clone -> Digest, events: seq<Event>, j: nat, reason: string)
    returns (states': seq<State>, events': seq<Event>)
    requires Run(states, digest, events)
    requires var s := states[|events|];
             j < |s.jobs| && s.jobs[j].Resting? && Latest(s.store).Some? && AwaitsHash(Latest(s.store).value)
    ensures Run(states', digest, events')
    ensures events' == events + [Poll(j), MarkInProgress(j), ScanFails(j), RecordFailure(j, reason)]
    ensures states'[|events'|] == FailedRecord(states[|events|], states[|events|].store.latest.value, reason)
  {
    RunKeepsInv(states, digest, events, |events|);
    assert HashOk(states[|events|], digest, states[|events|].store.latest.value);
    states', events' := FailHash(states, digest, events, j, reason);
  }

  /** A checkpoint whose value is not the published hash halts, and the reason is kept with the record, which
      stays as it is otherwise. */
  lemma DivergenceIsRecorded(states: seq<State>, digest: Clone -> Digest, events: seq<Event>, v: nat, cp: Checkpoint,
                             reason: string)
    returns (states': seq<State>, events': seq<Event>)
    requires Run(states, digest, events)
    requires var s := states[|events|];
             && v < |s.vcs| && s.vcs[v].Free? && Latest(s.store).Some? && Latest(s.store).value.status == Completed
             && cp.key.blockNum == Latest(s.store).value.blockNum && cp.value != ABORT
             && s.store.latest.value in s.clones && cp.value != digest(s.clones[s.store.latest.value])
    ensures Run(states', digest, events') && events' == events + [Verify(v, cp), Diagnose(v, reason)]
    ensures var s := states[|events|];
            var id := s.store.latest.value;
            states'[|events'|] ==
              s.(store := s.store.(records := s.store.records[id := s.store.records[id].(error := reason)]))
  {
    ghost var s := states[|events|];
    RunKeepsInv(states, digest, events, |events|);
    assert HashOk(s, digest, s.store.latest.value);
    states', events' := Snoc(states, digest, events, Verify(v, cp));
    states', events' := Snoc(states', digest, events', Diagnose(v, reason));
    assert states'[|events'|].vcs == s.vcs;
  }

  /** Deleting the database of a closed snapshot removes it and then its name from the record. */
  lemma CloneIsDeleted(states: seq<State>, digest: Clone -> Digest, events: seq<Event>, id: TxId)
    returns (states': seq<State>, events': seq<Event>)
    requires Run(states, digest, events)
    requires Closed(states[|events|].store, id) && states[|events|].store.records[id].hasClone
    ensures Run(states', digest, events') && events' == events + [Drop(id), ClearName(id)]
    ensures var s, s' := states[|events|], states'[|events'|];
            && s'.clones == s.clones - {id}
            && s'.store == s.store.(records := s.store.records[id := s.store.records[id].(hasClone := false)])
  {
    states', events' := Snoc(states, digest, events, Drop(id));
    states', events' := Snoc(states', digest, events', ClearName(id));
  }

  lemma StartRun(digest: Clone -> Digest) returns (states: seq<State>, events: seq<Event>)
    ensures Run(states, digest, events)
    ensures states[|events|] ==
            State(Store(map[], None), {}, {}, None, map[], map[], {}, map[], map[], [Free, Free], [Resting])
  {
    states := [State(Store(map[], None), {}, {}, None, map[], map[], {}, map[], map[], [Free, Free], [Resting])];
    events := [];
  }

  function ClosedAs(s: State, cp: Checkpoint): State
    requires Latest(s.store).Some?
  {
    var id := s.store.latest.value;
    s.(store := s.store.(records := s.store.records[id := s.store.records[id].(status := TerminalStatus(cp.value))]),
       keys := s.keys[cp.key := id], closed := s.closed[id := cp])
  }

  lemma CloseSnapshot(states: seq<State>, digest: Clone -> Digest, events: seq<Event>, cp: Checkpoint)
    returns (states': seq<State>, events': seq<Event>)
    requires Steps(states, digest, events)
    requires var s := states[|events|];
             && |s.vcs| > 0 && s.vcs[0].Free? && Latest(s.store).Some? && cp.key !in s.keys
             && VerifyCheckpoint(Latest(s.store), cp.key.blockNum, cp.value).Verified?
    ensures Steps(states', digest, events') && states'[0] == states[0]
    ensures states'[|events'|] == ClosedAs(states[|events|], cp)
  {
    ghost var s := states[|events|];
    states', events' := Snoc(states, digest, events, Verify(0, cp));
    states', events' := Snoc(states', digest, events', CommitCheckpoint(0));
    assert states'[|events'|].vcs == s.vcs;
  }

  /** With two keys for one block, a digest checkpoint and an abort can both be verified, and the guard
      fails the second. */
  lemma GuardReached(digest: Clone -> Digest, a: TxRef, clone: Clone, key: Key, key': Key)
    returns (states: seq<State>, events: seq<Event>)
    requires digest(clone) != ABORT && key != key' && key.blockNum == key'.blockNum == a.blockNum
    ensures Run(states, digest, events) && Enabled(states[|events|], CommitCheckpoint(1))
    ensures OutcomeOf(states[|events|], 1).GuardFails?
  {
    states, events := StartRun(digest);
    states, events := OpenSnapshot(states, digest, events, a, clone);
    states, events := HashSnapshot(states, digest, events, 0);
    states, events := Snoc(states, digest, events, Verify(1, Checkpoint(key', digest(clone))));
    states, events := CloseSnapshot(states, digest, events, Checkpoint(key, ABORT));
  }

  /** A snapshot is checkpointed while an abort of it is already verified. */
  lemma ClosedUnderAbort(digest: Clone -> Digest, a: TxRef, clone: Clone, key: Key, key': Key)
    returns (states: seq<State>, events: seq<Event>)
    requires digest(clone) != ABORT && key != key' && key.blockNum == key'.blockNum == a.blockNum
    ensures Run(states, digest, events)
    ensures var s := states[|events|];
            && s.vcs == [Free, Accepted(Checkpoint(key', ABORT), a.id)]
            && s.store.latest == Some(a.id) && s.store.records.Keys == {a.id}
            && s.store.records[a.id].status.Checkpointed?
            && s.decided == {a.id} && s.submitted == {a} && s.current == Some(a) && s.keys.Keys == {key}
            && s.clones.Keys == {a.id} && s.origins.Keys == {a.id}
  {
    states, events := StartRun(digest);
    states, events := OpenSnapshot(states, digest, events, a, clone);
    states, events := Snoc(states, digest, events, Verify(1, Checkpoint(key', ABORT)));
    states, events := HashSnapshot(states, digest, events, 0);
    states, events := CloseSnapshot(states, digest, events, Checkpoint(key, digest(clone)));
  }

  /** Or the second is written after all and closes nothing: its own snapshot keeps the other status,
      because a later one has the status it names. */
  lemma WrittenInVain(digest: Clone -> Digest, a: TxRef, b: TxRef, clone: Clone, key: Key, key': Key)
    returns (states: seq<State>, events: seq<Event>)
    requires digest(clone) != ABORT && key != key' && key.blockNum == key'.blockNum == a.blockNum
    requires a.id != b.id && a.blockNum != b.blockNum
    ensures Run(states, digest, events) && Enabled(states[|events|], CommitCheckpoint(1))
    ensures states[|events|].vcs[1] == Accepted(Checkpoint(key', ABORT), a.id)
    ensures OutcomeOf(states[|events|], 1).Written?
    ensures a.id in states[|events|].store.records && states[|events|].store.records[a.id].status.Checkpointed?
  {
    states, events := ClosedUnderAbort(digest, a, clone, key, key');
    states, events := OpenSnapshot(states, digest, events, b, clone);
    states, events := CloseSnapshot(states, digest, events, Checkpoint(Key(b.blockNum, 0), ABORT));
  }

  // ---------------------------------------------------------------------
  // Databases of decided transactions.

  /** The status table is read before the database is created, so a database can be made for a transaction
      that was decided since. In a run, if that transaction has a snapshot, the snapshot is closed and its
      database was dropped before: an open snapshot's database is never made again. The other half, that
      CREATE makes a database exactly when there is none, is its own guard. */
  lemma LateCloneIff(states: seq<State>, digest: Clone -> Digest, events: seq<Event>, k: nat)
    requires Run(states, digest, events) && k < |events| && events[k].Create?
    ensures var s, s', v := states[k], states[k + 1], events[k].v;
            && v < |s.vcs| && s.vcs[v].Cleared?
            && var id, late := s.vcs[v].ref.id, s.vcs[v].ref.id in s.decided && s'.clones != s.clones;
               && (late && id in s.store.records ==> Closed(s.store, id) && id in s.dropped)
               && (late ==> s'.clones == s.clones[id := events[k].clone])
               && (late <==> id in s.decided && id !in s.clones)
  {
    RunKeepsInv(states, digest, events, k);
    assert Taken(states, digest, events, k);
    var s, id := states[k], states[k].vcs[events[k].v].ref.id;
    if id in s.store.records { assert HashOk(s, digest, id); }
    if id !in s.clones { assert id in states[k + 1].clones; }
  }

  /** A database is created only for a transaction whose status was read before, and was unknown then. */
  lemma {:induction false} ClearedSince(states: seq<State>, digest: Clone -> Digest, events: seq<Event>, k: nat, v: nat)
    returns (m: nat)
    requires Run(states, digest, events) && k < |states| && v < |states[k].vcs| && states[k].vcs[v].Cleared?
    ensures m < k && events[m] == Recheck(v) && states[k].vcs[v].ref.id !in states[m].decided
  {
    assert k > 0;
    assert Taken(states, digest, events, k - 1);
    var s, e := states[k - 1], events[k - 1];
    if |s.vcs| > 0 { VcFrame(s, digest, e, 0); }
    VcFrame(s, digest, e, v);
    if s.vcs[v] == states[k].vcs[v] {
      m := ClearedSince(states, digest, events, k - 1, v);
    } else {
      ClearedByRecheck(s, digest, e, v);
      m := k - 1;
    }
  }

  lemma ClearedByRecheck(s: State, digest: Clone -> Digest, e: Event, v: nat)
    requires Enabled(s, e) && v < |s.vcs| && |Step(s, digest, e).vcs| == |s.vcs|
    requires Step(s, digest, e).vcs[v] != s.vcs[v] && Step(s, digest, e).vcs[v].Cleared?
    requires (e.Take? || e.Gate? || e.Recheck? || e.Create? || e.Verify?) && e.v == v
    ensures e == Recheck(v) && Step(s, digest, e).vcs[v].ref.id !in s.decided
  {
  }

  /** A snapshot transaction that comes again after it was decided changes nothing. */
  lemma KnownIsLeftAlone(states: seq<State>, digest: Clone -> Digest, events: seq<Event>, v: nat)
    returns (states': seq<State>, events': seq<Event>)
    requires Run(states, digest, events)
    requires var s := states[|events|];
             v < |s.vcs| && s.vcs[v].Free? && s.current.Some? && s.current.value.id in s.decided
    ensures Run(states', digest, events') && events' == events + [Take(v), Gate(v)]
    ensures states'[|events'|] == states[|events|]
  {
    states', events' := Snoc(states, digest, events, Take(v));
    states', events' := Snoc(states', digest, events', Gate(v));
    assert states'[|events'|].vcs == states[|events|].vcs;
  }

  /** A hasher that picked a snapshot another one has finished meanwhile, or that was closed, goes back to
      rest and changes nothing. */
  lemma LateHasherRests(states: seq<State>, digest: Clone -> Digest, events: seq<Event>, j: nat)
    returns (states': seq<State>, events': seq<Event>)
    requires Run(states, digest, events)
    requires var s := states[|events|];
             && j < |s.jobs| && s.jobs[j].Picked? && s.jobs[j].status != InProgress
             && s.jobs[j].id in s.store.records && !AwaitsHash(s.store.records[s.jobs[j].id])
    ensures Run(states', digest, events') && events' == events + [MarkInProgress(j)]
    ensures states'[|events'|] == SetJob(states[|events|], j, Resting)
  {
    states', events' := Snoc(states, digest, events, MarkInProgress(j));
  }

  /** Two validator-committers are given the same snapshot transaction. The slower one makes the database
      again, with whatever the tables hold then, after the snapshot was aborted and its database dropped. */
  lemma LateClone(digest: Clone -> Digest, a: TxRef, clone: Clone, clone': Clone)
    returns (states: seq<State>, events: seq<Event>)
    ensures Run(states, digest, events)
    ensures var s := states[|events|];
            && Closed(s.store, a.id) && a.id in s.dropped && a.id in s.clones && s.clones[a.id] == clone'
            && a.id in s.origins && s.origins[a.id] == clone
  {
    states, events := StartRun(digest);
    states, events := BothCleared(states, digest, events, a);
    states, events := Snoc(states, digest, events, Create(0, clone));
    states, events := Snoc(states, digest, events, Commit(0));
    states, events := CloseSnapshot(states, digest, events, Checkpoint(Key(a.blockNum, 0), ABORT));
    states, events := Snoc(states, digest, events, Drop(a.id));
    states, events := Snoc(states, digest, events, Create(1, clone'));
  }

  lemma BothCleared(states: seq<State>, digest: Clone -> Digest, events: seq<Event>, a: TxRef)
    returns (states': seq<State>, events': seq<Event>)
    requires Steps(states, digest, events) && states[|events|].vcs == [Free, Free]
    requires states[|events|].submitted == {} && states[|events|].current.None? && states[|events|].decided == {}
    requires states[|events|].store == Store(map[], None)
    ensures Steps(states', digest, events') && states'[0] == states[0]
    ensures states'[|events'|] ==
            states[|events|].(submitted := {a}, current := Some(a), vcs := [Cleared(a), Cleared(a)])
  {
    states', events' := Snoc(states, digest, events, Submit(a));
    states', events' := Snoc(states', digest, events', Take(0));
    states', events' := Snoc(states', digest, events', Take(1));
    states', events' := Snoc(states', digest, events', Gate(0));
    states', events' := Snoc(states', digest, events', Gate(1));
    states', events' := Snoc(states', digest, events', Recheck(0));
    states', events' := Snoc(states', digest, events', Recheck(1));
    assert states'[|events'|].vcs == [Cleared(a), Cleared(a)];
  }

  // ---------------------------------------------------------------------
  // Two snapshot transactions in flight.

  predicate Distinct(s: State, a: TxRef, b: TxRef) {
    && a.id != b.id && a.id !in s.decided && b.id !in s.decided
  }

  lemma BothPassTheGate(s: State, digest: Clone -> Digest, a: TxRef, b: TxRef)
    returns (states: seq<State>, events: seq<Event>)
    requires s.vcs == [Holding(a), Holding(b)] && NoneActive(s.store) && Distinct(s, a, b)
    ensures Steps(states, digest, events) && states[0] == s && events == [Gate(0), Gate(1), Recheck(0), Recheck(1)]
    ensures states[|events|] == s.(vcs := [Cleared(a), Cleared(b)])
  {
    states, events := [s], [];
    states, events := Snoc(states, digest, events, Gate(0));
    states, events := Snoc(states, digest, events, Gate(1));
    states, events := Snoc(states, digest, events, Recheck(0));
    states, events := Snoc(states, digest, events, Recheck(1));
    assert states[|events|].vcs == [Cleared(a), Cleared(b)];
  }

  lemma BothCloned(states: seq<State>, digest: Clone -> Digest, events: seq<Event>, a: TxRef, b: TxRef, clone: Clone)
    returns (states': seq<State>, events': seq<Event>)
    requires Steps(states, digest, events) && states[|events|].vcs == [Cleared(a), Cleared(b)]
    ensures Steps(states', digest, events') && states'[0] == states[0]
    ensures events' == events + [Create(0, clone), Create(1, clone)]
    ensures var s, s' := states[|events|], states'[|events'|];
            s'.vcs == [Cloned(a), Cloned(b)] && s'.decided == s.decided && s'.store == s.store
  {
    states', events' := Snoc(states, digest, events, Create(0, clone));
    assert states'[|events'|].vcs == [Cloned(a), Cleared(b)];
    states', events' := Snoc(states', digest, events', Create(1, clone));
    assert states'[|events'|].vcs == [Cloned(a), Cloned(b)];
  }

  /** Without a snapshot transaction being alone in flight, two of them can pass the gate while nothing is
      open, and then both are. */
  lemma TwoInFlightTwoOpen(s: State, digest: Clone -> Digest, a: TxRef, b: TxRef, clone: Clone)
    returns (states: seq<State>, events: seq<Event>)
    requires s.vcs == [Holding(a), Holding(b)] && NoneActive(s.store) && Distinct(s, a, b)
    ensures Steps(states, digest, events) && states[0] == s
    ensures events == [Gate(0), Gate(1), Recheck(0), Recheck(1), Create(0, clone), Create(1, clone), Commit(0),
            Commit(1)]
    ensures var records := states[|events|].store.records;
            a.id in records && b.id in records && records[a.id].status.Pending? && records[b.id].status.Pending?
  {
    states, events := BothPassTheGate(s, digest, a, b);
    states, events := BothCloned(states, digest, events, a, b, clone);
    states, events := Snoc(states, digest, events, Commit(0));
    states, events := Snoc(states, digest, events, Commit(1));
  }
}
