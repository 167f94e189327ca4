/** The workload generator's key model: which keys a transaction touches, and the counters that follow from
    the number of transactions alone. The backreference rate is an exact real. */
module KeyModel {

  datatype Profile = Profile(readWrite: nat, blindWrite: nat, readOnly: nat, backrefRate: real, window: nat, gap: nat)

  function Writes(p: Profile): nat {
    p.readWrite + p.blindWrite
  }

  function Slots(p: Profile): nat {
    Writes(p) + p.readOnly
  }

  predicate Valid(p: Profile) {
    0.0 <= p.backrefRate <= Slots(p) as real
  }

  function Rate(p: Profile): real {
    Slots(p) as real - p.backrefRate
  }

  /** How many keys are introduced before transaction n. */
  function Frontier(p: Profile, n: nat): int {
    (n as real * Rate(p)).Floor
  }

  // ---------------------------------------------------------------------
  // The frontier.

  lemma FloorShift(x: real, r: real, k: int)
    ensures r <= k as real ==> (x + r).Floor <= x.Floor + k
    ensures r >= k as real ==> (x + r).Floor >= x.Floor + k
  {
    assert (x + k as real).Floor == x.Floor + k;
  }

  /** The frontier moves by the rate rounded down or up. */
  lemma FrontierStep(p: Profile, n: nat, k: int)
    ensures Rate(p) <= k as real ==> Frontier(p, n + 1) - Frontier(p, n) <= k
    ensures Rate(p) >= k as real ==> Frontier(p, n + 1) - Frontier(p, n) >= k
  {
    assert (n + 1) as real * Rate(p) == n as real * Rate(p) + Rate(p);
    FloorShift(n as real * Rate(p), Rate(p), k);
  }

  lemma {:induction false} FrontierMonotone(p: Profile, m: nat, n: nat)
    requires Valid(p) && m <= n
    ensures Frontier(p, m) <= Frontier(p, n)
  {
    if m < n {
      FrontierMonotone(p, m, n - 1);
      FrontierStep(p, n - 1, 0);
    }
  }

  lemma FrontierStart(p: Profile)
    ensures Frontier(p, 0) == 0
  {
    assert 0 as real * Rate(p) == 0.0;
  }

  /** The frontier is the number of slots less the backreference rate, times the number of transactions,
      rounded down. */
  lemma FrontierIsFloor(p: Profile, n: nat)
    requires Valid(p)
    ensures var exact := n as real * ((p.readWrite + p.blindWrite + p.readOnly) as real - p.backrefRate);
            Frontier(p, n) as real <= exact < Frontier(p, n) as real + 1.0
  {
  }

  /** Without backreferences every slot of every transaction is fresh; with as many as there are slots none
      is. */
  lemma RateEndpoints(p: Profile, n: nat)
    requires Valid(p)
    ensures p.backrefRate == 0.0 ==> NewKeys(p, n) == p.readWrite + p.blindWrite + p.readOnly
    ensures p.backrefRate == (p.readWrite + p.blindWrite + p.readOnly) as real ==> NewKeys(p, n) == 0
  {
    FrontierStep(p, n, Slots(p));
    FrontierStep(p, n, 0);
  }

  function NewKeys(p: Profile, n: nat): int {
    var step := Frontier(p, n + 1) - Frontier(p, n);
    if step < Slots(p) then step else Slots(p)
  }

  /** Fresh ranges of successive transactions follow each other without a gap. */
  lemma FreshRangesTile(p: Profile, n: nat)
    requires Valid(p)
    ensures 0 <= NewKeys(p, n) <= Slots(p)
    ensures Frontier(p, n) + NewKeys(p, n) == Frontier(p, n + 1)
    ensures Frontier(p, 0) == 0
  {
    FrontierStep(p, n, 0);
    FrontierStep(p, n, Slots(p));
    FrontierStart(p);
  }

  /** Every index below the frontier was introduced by exactly one earlier transaction. */
  lemma {:induction false} IntroducedBefore(p: Profile, n: nat, k: nat) returns (m: nat)
    requires Valid(p) && k < Frontier(p, n)
    ensures m < n && Frontier(p, m) <= k < Frontier(p, m) + NewKeys(p, m)
    ensures forall m': nat :: Frontier(p, m') <= k < Frontier(p, m') + NewKeys(p, m') ==> m' == m
  {
    FrontierStart(p);
    if Frontier(p, n - 1) <= k {
      m := n - 1;
      FreshRangesTile(p, m);
      OnlyOne(p, m, k);
    } else {
      m := IntroducedBefore(p, n - 1, k);
    }
  }

  lemma OnlyOne(p: Profile, m: nat, k: int)
    requires Valid(p) && Frontier(p, m) <= k < Frontier(p, m + 1)
    ensures forall m': nat :: Frontier(p, m') <= k < Frontier(p, m') + NewKeys(p, m') ==> m' == m
  {
    forall m': nat | Frontier(p, m') <= k < Frontier(p, m') + NewKeys(p, m') ensures m' == m {
      FreshRangesTile(p, m');
      if m' < m { FrontierMonotone(p, m' + 1, m); }
      if m < m' { FrontierMonotone(p, m + 1, m'); }
    }
  }

  // ---------------------------------------------------------------------
  // The keys of one transaction.

  /** Fresh keys first, then references: all different, every reference below every fresh key. */
  predicate SlotKeysOk(p: Profile, n: nat, keys: seq<int>) {
    && |keys| == Slots(p)
    && (forall i :: 0 <= i < |keys| && i < NewKeys(p, n) ==> keys[i] == Frontier(p, n) + i)
    && (forall i :: 0 <= i < |keys| && i >= NewKeys(p, n) ==> keys[i] < Frontier(p, n))
    && (forall i, j :: 0 <= i < j < |keys| ==> keys[i] != keys[j])
  }

  /** What Floyd's method draws for place i of a sample of n out of window: the random offset, or the newest
      one of its range when that was drawn before. */
  predicate Drawn(window: nat, n: nat, rnd: nat -> nat, offsets: seq<nat>, i: nat)
    requires i < n <= window && i < |offsets|
  {
    var j := window - n + i;
    offsets[i] == if rnd(i) % (j + 1) in offsets[..i] then j else rnd(i) % (j + 1)
  }

  predicate Distinct(s: seq<nat>) {
    forall i, j :: 0 <= i < j < |s| ==> s[i] != s[j]
  }

  predicate AllDrawn(window: nat, n: nat, rnd: nat -> nat, offsets: seq<nat>)
    requires n <= window
  {
    forall i :: 0 <= i < n && i < |offsets| ==> Drawn(window, n, rnd, offsets, i)
  }

  /** Floyd's sample of n offsets into the window. */
  method SampleWindow(window: nat, n: nat, rnd: nat -> nat) returns (offsets: seq<nat>)
    requires n <= window
    ensures |offsets| == n && Distinct(offsets) && AllDrawn(window, n, rnd, offsets)
    ensures forall i :: 0 <= i < n ==> offsets[i] < window
  {
    offsets := [];
    var selected: set<nat> := {};
    for i := 0 to n
      invariant |offsets| == i && Distinct(offsets) && AllDrawn(window, n, rnd, offsets)
      invariant forall t :: t in selected <==> t in offsets
      invariant forall a :: 0 <= a < i ==> offsets[a] < window - n + i
    {
      var j := window - n + i;
      var t := rnd(i) % (j + 1);
      if t in selected { t := j; }
      selected := selected + {t};
      DrawnKept(window, n, rnd, offsets, t);
      assert (offsets + [t])[..i] == offsets;
      offsets := offsets + [t];
    }
  }

  /** The offsets follow from what was drawn: as many as the window holds are its sample, the others step
      back one by one. */
  predicate Picked(window: nat, count: nat, rnd: nat -> nat, offsets: seq<nat>) {
    var sampled := if window < count then window else count;
    && |offsets| == count && AllDrawn(window, sampled, rnd, offsets)
    && forall i :: sampled <= i < count ==> offsets[i] == i
  }

  /** References are picked by offset back from the top: a sample of the window without repetition, then one
      by one. rnd is what the derived bytes hold, eight at a time. */
  method SampleOffsets(window: nat, count: nat, rnd: nat -> nat) returns (offsets: seq<nat>)
    ensures |offsets| == count && Distinct(offsets)
    ensures forall i :: 0 <= i < count ==> offsets[i] < window || offsets[i] < count
    ensures Picked(window, count, rnd, offsets)
  {
    var sampled := if window < count then window else count;
    offsets := SampleWindow(window, sampled, rnd);
    for i := sampled to count
      invariant |offsets| == i && Distinct(offsets) && AllDrawn(window, sampled, rnd, offsets)
      invariant forall a :: 0 <= a < i ==> offsets[a] < window || offsets[a] < i
      invariant forall a :: sampled <= a < i ==> offsets[a] == a
    {
      DrawnKept(window, sampled, rnd, offsets, i);
      offsets := offsets + [i];
    }
  }

  lemma DrawnKept(window: nat, n: nat, rnd: nat -> nat, offsets: seq<nat>, t: nat)
    requires n <= window && AllDrawn(window, n, rnd, offsets)
    ensures forall a :: 0 <= a < n && a < |offsets| ==> Drawn(window, n, rnd, offsets + [t], a)
  {
    forall a | 0 <= a < n && a < |offsets| ensures Drawn(window, n, rnd, offsets + [t], a) {
      assert Drawn(window, n, rnd, offsets, a);
      assert (offsets + [t])[..a] == offsets[..a];
    }
  }

  lemma DrawnInFull(window: nat, rnd: nat -> nat, offsets: seq<nat>)
    requires Picked(window, |offsets|, rnd, offsets)
    ensures var sampled := if window < |offsets| then window else |offsets|;
            forall i :: 0 <= i < sampled ==>
              offsets[i] == if rnd(i) % (window - sampled + i + 1) in offsets[..i] then window - sampled + i
                            else rnd(i) % (window - sampled + i + 1)
  {
    var sampled := if window < |offsets| then window else |offsets|;
    forall i | 0 <= i < sampled
      ensures offsets[i] == if rnd(i) % (window - sampled + i + 1) in offsets[..i] then window - sampled + i
                            else rnd(i) % (window - sampled + i + 1)
    {
      assert Drawn(window, sampled, rnd, offsets, i);
    }
  }

  /** Fresh keys from the frontier on, then references back from the top. */
  predicate Filled(keys: seq<int>, frontier: int, newKeys: int, top: int, window: nat) {
    && 0 <= newKeys <= |keys|
    && (forall i :: 0 <= i < newKeys ==> keys[i] == frontier + i)
    && (forall i :: newKeys <= i < |keys| ==> top - Max(window, |keys| - newKeys) <= keys[i] < top)
    && (forall i, j :: newKeys <= i < j < |keys| ==> keys[i] != keys[j])
  }

  /** The references lie the offsets back from the top. */
  predicate BackFrom(keys: seq<int>, newKeys: int, top: int, offsets: seq<nat>) {
    && 0 <= newKeys && |keys| == newKeys + |offsets|
    && forall i :: newKeys <= i < |keys| ==> keys[i] == top - 1 - offsets[i - newKeys]
  }

  function Max(a: int, b: int): int {
    if a < b then b else a
  }

  method FillKeys(slots: nat, frontier: int, newKeys: nat, top: int, window: nat, rnd: nat -> nat)
    returns (keys: array<int>, ghost offsets: seq<nat>)
    requires newKeys <= slots
    ensures keys.Length == slots && Filled(keys[..], frontier, newKeys, top, window)
    ensures Picked(window, slots - newKeys, rnd, offsets) && BackFrom(keys[..], newKeys, top, offsets)
  {
    keys := new int[slots];
    for i := 0 to newKeys
      invariant forall j :: 0 <= j < i ==> keys[j] == frontier + j
    {
      keys[i] := frontier + i;
    }
    var picked := SampleOffsets(window, slots - newKeys, rnd);
    offsets := picked;
    for i := newKeys to slots
      invariant forall j :: 0 <= j < newKeys ==> keys[j] == frontier + j
      invariant forall j :: newKeys <= j < i ==> keys[j] == top - 1 - picked[j - newKeys]
    {
      keys[i] := top - 1 - picked[i - newKeys];
    }
  }

  method SlotKeys(p: Profile, txIdx: nat, rnd: nat -> nat) returns (keys: array<int>, ghost offsets: seq<nat>)
    requires Valid(p)
    ensures keys.Length == p.readWrite + p.blindWrite + p.readOnly
    ensures Picked(p.window, Slots(p) - NewKeys(p, txIdx), rnd, offsets)
    ensures BackFrom(keys[..], NewKeys(p, txIdx), Frontier(p, if txIdx < p.gap then 0 else txIdx - p.gap), offsets)
    ensures var sampled := if p.window < |offsets| then p.window else |offsets|;
            forall i :: 0 <= i < sampled ==>
              offsets[i] == if rnd(i) % (p.window - sampled + i + 1) in offsets[..i] then p.window - sampled + i
                            else rnd(i) % (p.window - sampled + i + 1)
    ensures SlotKeysOk(p, txIdx, keys[..])
    ensures var top, refs := Frontier(p, if txIdx < p.gap then 0 else txIdx - p.gap), Slots(p) - NewKeys(p, txIdx);
            forall i :: 0 <= i < keys.Length && i >= NewKeys(p, txIdx) ==> top - Max(p.window, refs) <= keys[i] < top
  {
    FreshRangesTile(p, txIdx);
    FrontierMonotone(p, Earlier(txIdx, p.gap), txIdx);
    keys, offsets := FillKeys(Slots(p), Frontier(p, txIdx), NewKeys(p, txIdx), Frontier(p, Earlier(txIdx, p.gap)),
                              p.window, rnd);
    FilledIsOk(p, txIdx, keys[..], Frontier(p, Earlier(txIdx, p.gap)), p.window);
    DrawnInFull(p.window, rnd, offsets);
  }

  function Earlier(txIdx: nat, gap: nat): nat {
    if txIdx < gap then 0 else txIdx - gap
  }

  lemma FilledIsOk(p: Profile, n: nat, keys: seq<int>, top: int, window: nat)
    requires |keys| == Slots(p) && Filled(keys, Frontier(p, n), NewKeys(p, n), top, window) && top <= Frontier(p, n)
    ensures SlotKeysOk(p, n, keys)
  {
  }

  // ---------------------------------------------------------------------
  // Counters.

  function CountBelow(keys: seq<int>, bound: int): nat {
    if keys == [] then 0 else CountBelow(keys[..|keys| - 1], bound) + if keys[|keys| - 1] < bound then 1 else 0
  }

  /** In a prefix of the slots, what is not fresh is a reference. */
  lemma {:induction false} RefsInPrefix(p: Profile, n: nat, keys: seq<int>, k: nat)
    requires Valid(p) && SlotKeysOk(p, n, keys) && k <= |keys|
    ensures CountBelow(keys[..k], Frontier(p, n)) == if k <= NewKeys(p, n) then 0 else k - NewKeys(p, n)
  {
    FreshRangesTile(p, n);
    if k > 0 {
      RefsInPrefix(p, n, keys, k - 1);
      assert keys[..k][..k - 1] == keys[..k - 1];
    }
  }

  lemma {:induction false} CountConcat(a: seq<int>, b: seq<int>, bound: int)
    ensures CountBelow(a + b, bound) == CountBelow(a, bound) + CountBelow(b, bound)
  {
    if b == [] {
      assert a + b == a;
    } else {
      assert (a + b)[..|a + b| - 1] == a + b[..|b| - 1];
      CountConcat(a, b[..|b| - 1], bound);
    }
  }

  datatype KeyStats = KeyStats(keyFrontier: int, referencedReadKeys: int, referencedWriteKeys: int)

  function Min(a: int, b: int): int {
    if a < b then a else b
  }

  /** What transaction n adds: its fresh keys, the read-only slots and the write slots that reuse a key. */
  function StatsOf(p: Profile, n: nat, keys: seq<int>): KeyStats
    requires |keys| == Slots(p)
  {
    KeyStats(NewKeys(p, n),
             CountBelow(keys[Writes(p)..], Frontier(p, n)),
             CountBelow(keys[..Writes(p)], Frontier(p, n)))
  }

  /** Every transaction's keys are as slotKeys gives them, whatever was drawn. */
  predicate WellDrawn(p: Profile, txs: seq<seq<int>>) {
    forall i :: 0 <= i < |txs| ==> SlotKeysOk(p, i, txs[i])
  }

  function Total(p: Profile, txs: seq<seq<int>>): KeyStats
    requires WellDrawn(p, txs)
  {
    if txs == [] then KeyStats(0, 0, 0) else
      var n := |txs| - 1;
      var t, s := Total(p, txs[..n]), StatsOf(p, n, txs[n]);
      KeyStats(t.keyFrontier + s.keyFrontier, t.referencedReadKeys + s.referencedReadKeys,
        t.referencedWriteKeys + s.referencedWriteKeys)
  }

  function ClosedForm(p: Profile, n: nat): KeyStats {
    var w, created := Writes(p), Frontier(p, n);
    var writeCreates := Min(n * w, created);
    KeyStats(created, n * p.readOnly - (created - writeCreates), n * w - writeCreates)
  }

  lemma StatsOfTx(p: Profile, n: nat, keys: seq<int>)
    requires Valid(p) && SlotKeysOk(p, n, keys)
    ensures StatsOf(p, n, keys).referencedWriteKeys == Writes(p) - Min(Writes(p), NewKeys(p, n))
    ensures StatsOf(p, n, keys).referencedReadKeys == p.readOnly - (NewKeys(p, n) - Min(Writes(p), NewKeys(p, n)))
  {
    var w := Writes(p);
    RefsInPrefix(p, n, keys, w);
    RefsInPrefix(p, n, keys, |keys|);
    assert keys[..|keys|] == keys == keys[..w] + keys[w..];
    CountConcat(keys[..w], keys[w..], Frontier(p, n));
    FreshRangesTile(p, n);
  }

  /** Either every transaction has a write slot for each fresh key, or none has too many. */
  lemma {:induction false} WriteCreates(p: Profile, n: nat)
    requires Valid(p)
    ensures Rate(p) <= Writes(p) as real ==> Frontier(p, n) <= n * Writes(p)
    ensures Rate(p) >= Writes(p) as real ==> Frontier(p, n) >= n * Writes(p)
  {
    if n == 0 {
      FrontierStart(p);
    } else {
      WriteCreates(p, n - 1);
      FrontierStep(p, n - 1, Writes(p));
      assert n * Writes(p) == (n - 1) * Writes(p) + Writes(p);
    }
  }

  /** The closed form one transaction further, as plain integer arithmetic. */
  lemma ClosedFormStep(p: Profile, n: nat)
    requires Valid(p)
    ensures var c, d, k, w := ClosedForm(p, n), ClosedForm(p, n + 1), NewKeys(p, n), Writes(p);
            && d.keyFrontier == c.keyFrontier + k
            && d.referencedWriteKeys == c.referencedWriteKeys + w - Min(w, k)
            && d.referencedReadKeys == c.referencedReadKeys + p.readOnly - (k - Min(w, k))
  {
    FreshRangesTile(p, n);
    FrontierStep(p, n, Writes(p));
    WriteCreates(p, n);
    WriteCreates(p, n + 1);
    MinStep(n * Writes(p), (n + 1) * Writes(p), Writes(p), Frontier(p, n), NewKeys(p, n));
    assert (n + 1) * p.readOnly == n * p.readOnly + p.readOnly;
  }

  lemma MinStep(nw: int, nw': int, w: int, f: int, k: int)
    requires nw' == nw + w && ((f <= nw && k <= w) || (f >= nw && k >= w))
    ensures Min(nw', f + k) == Min(nw, f) + Min(w, k)
  {
  }

  /** Summed over the first n transactions, whatever was drawn for them, the counts are the closed form. */
  lemma {:induction false} StatsAreClosedForm(p: Profile, txs: seq<seq<int>>)
    requires Valid(p) && WellDrawn(p, txs)
    ensures Total(p, txs) == ClosedForm(p, |txs|)
  {
    if txs == [] {
      FrontierStart(p);
    } else {
      var n := |txs| - 1;
      StatsAreClosedForm(p, txs[..n]);
      StatsOfTx(p, n, txs[n]);
      ClosedFormStep(p, n);
    }
  }

  class TxCounter {
    const profile: Profile
    var counter: nat

    constructor (profile: Profile)
      ensures this.profile == profile && counter == 0
    {
      this.profile, counter := profile, 0;
    }

    /** The caller owns [base, base + n). */
    method Reserve(n: nat) returns (base: nat)
      modifies this`counter
      ensures base == old(counter) && counter == base + n
    {
      counter := counter + n;
      base := counter - n;
    }

    /** The counters of the transactions reserved so far, without going through them. */
    method Stats(ghost txs: seq<seq<int>>) returns (s: KeyStats)
      requires Valid(profile) && |txs| == counter && WellDrawn(profile, txs)
      ensures s == Total(profile, txs)
    {
      StatsAreClosedForm(profile, txs);
      var n, w := counter, Writes(profile);
      FrontierStart(profile);
      FrontierMonotone(profile, 0, n);
      var created := Frontier(profile, n);
      if created < 0 { created := 0; }
      var writeCreates := Min(n * w, created);
      s := KeyStats(created, n * profile.readOnly - (created - writeCreates), n * w - writeCreates);
    }
  }
}
