/** The ring buffer of blocks in flight, as a refinement of a plain sequence window. */
module InFlightRing {
  import opened Arithmetic
  import opened Common

  const INITIAL_CAPACITY := 64

  // ---------------------------------------------------------------------
  // Masking.

  predicate IsPowerOfTwo(n: nat) {
    n == 1 || (n > 1 && n % 2 == 0 && IsPowerOfTwo(n / 2))
  }

  /** Bitwise and, bit by bit. */
  function BitAnd(a: nat, b: nat): nat {
    if a == 0 || b == 0 then 0 else (a % 2) * (b % 2) + 2 * BitAnd(a / 2, b / 2)
  }

  lemma HalfModulo(p: nat, n: nat)
    requires n > 0
    ensures p % (2 * n) == p % 2 + 2 * ((p / 2) % n)
  {
    var q, r := (p / 2) / n, (p / 2) % n;
    assert p / 2 == q * n + r;
    assert q * (2 * n) == 2 * (q * n);
    DivModUnique(p, 2 * n, q, p % 2 + 2 * r);
  }

  lemma {:induction false} MaskIsModulo(p: nat, n: nat)
    requires IsPowerOfTwo(n)
    ensures BitAnd(p, n - 1) == p % n
  {
    if n > 1 {
      MaskIsModulo(p / 2, n / 2);
      HalfModulo(p, n / 2);
      assert (n - 1) / 2 == n / 2 - 1 && (n - 1) % 2 == 1;
      if p == 0 || n / 2 == 1 {
        assert BitAnd(p / 2, n / 2 - 1) == 0;
      }
    }
  }

  /** A position less than two laps ahead, brought back into the ring. */
  function Wrap(p: nat, len: nat): nat
    requires p < 2 * len
  {
    if p < len then p else p - len
  }

  lemma ModuloIsWrap(p: nat, len: nat)
    requires p < 2 * len
    ensures p % len == Wrap(p, len)
  {
    DivModUnique(p, len, if p < len then 0 else 1, Wrap(p, len));
  }

  // ---------------------------------------------------------------------
  // Wrapped offsets.

  function Offset(blockNumber: Uint64, next: Uint64): Uint64 {
    (blockNumber - next) % TWO_TO_THE_64
  }

  /** A number below the window wraps to a large offset, so one comparison tells the three cases apart. */
  lemma OffsetClassifies(blockNumber: Uint64, next: Uint64, count: nat)
    requires next + count < TWO_TO_THE_64
    ensures Offset(blockNumber, next) < count <==> next <= blockNumber < next + count
    ensures Offset(blockNumber, next) == count <==> blockNumber == next + count
    ensures next <= blockNumber ==> Offset(blockNumber, next) == blockNumber - next
  {
  }

  // ---------------------------------------------------------------------
  // The ring.

  /** The ring slots of a window of count blocks from head on are filled. */
  predicate Filled<T>(buf: seq<Option<T>>, head: nat, count: nat)
  {
    && count <= |buf| && (head < |buf| || (head == 0 && |buf| == 0))
    && forall i :: 0 <= i < count ==> At(buf, head, i).Some?
  }

  function At<T>(buf: seq<Option<T>>, head: nat, i: nat): Option<T> {
    if head < |buf| && i < |buf| then buf[Wrap(head + i, |buf|)] else None
  }

  function Unrolled<T>(buf: seq<Option<T>>, head: nat, count: nat): (w: seq<T>)
    requires Filled(buf, head, count)
    ensures |w| == count
  {
    seq(count, i requires 0 <= i < count => At(buf, head, i).value)
  }

  lemma Appended<T>(buf: seq<Option<T>>, head: nat, count: nat, x: T)
    requires Filled(buf, head, count) && count < |buf|
    ensures var now := buf[Wrap(head + count, |buf|) := Some(x)];
            Filled(now, head, count + 1) && Unrolled(now, head, count + 1) == Unrolled(buf, head, count) + [x]
  {
    var now := buf[Wrap(head + count, |buf|) := Some(x)];
    assert forall i :: 0 <= i < count ==> At(now, head, i) == At(buf, head, i);
    assert At(now, head, count) == Some(x);
  }

  lemma Dropped<T>(buf: seq<Option<T>>, head: nat, count: nat)
    requires Filled(buf, head, count) && count > 0
    ensures var now, head' := buf[head := None], Wrap(head + 1, |buf|);
            Filled(now, head', count - 1) && Unrolled(now, head', count - 1) == Unrolled(buf, head, count)[1..]
  {
    var now, head' := buf[head := None], Wrap(head + 1, |buf|);
    assert forall i :: 0 <= i < count - 1 ==> At(now, head', i) == At(buf, head, i + 1);
  }

  lemma Relaid<T>(buf: seq<Option<T>>, head: nat, count: nat, now: seq<Option<T>>)
    requires Filled(buf, head, count) && |now| > count
    requires forall i :: 0 <= i < count ==> now[i] == At(buf, head, i)
    ensures Filled(now, 0, count) && Unrolled(now, 0, count) == Unrolled(buf, head, count)
  {
    assert forall i :: 0 <= i < count ==> At(now, 0, i) == now[i];
  }

  class InFlightBlocks<T(0)> {
    var nextBlockNum: Uint64
    var buf: array<Option<T>>
    var head: nat
    var count: nat

    ghost predicate Valid()
      reads this, buf
    {
      && (buf.Length == 0 || IsPowerOfTwo(buf.Length))
      && Filled(buf[..], head, count)
      && nextBlockNum + count < TWO_TO_THE_64
    }

    /** The tracked blocks, oldest first: block nextBlockNum + i is at position i. */
    ghost function Window(): (w: seq<T>)
      requires Valid()
      reads this, buf
      ensures |w| == count
    {
      Unrolled(buf[..], head, count)
    }

    constructor (next: Uint64)
      ensures Valid() && Window() == [] && nextBlockNum == next && fresh(buf)
    {
      nextBlockNum, head, count := next, 0, 0;
      buf := new Option<T>[0];
    }

    function Slot(position: nat): (r: nat)
      requires IsPowerOfTwo(buf.Length)
      reads this
      ensures r == position % buf.Length
    {
      MaskIsModulo(position, buf.Length);
      BitAnd(position, buf.Length - 1)
    }

    method Grow()
      requires Valid() && count == buf.Length
      modifies this
      ensures Valid() && fresh(buf) && buf.Length > count == old(count)
      ensures Window() == old(Window()) && nextBlockNum == old(nextBlockNum)
    {
      var size := if buf.Length == 0 then INITIAL_CAPACITY else 2 * buf.Length;
      assert IsPowerOfTwo(size) by {
        assert IsPowerOfTwo(64) by { assert IsPowerOfTwo(8); }
      }
      var bigger := new Option<T>[size](_ => None);
      for i := 0 to count
        invariant forall j :: 0 <= j < i ==> bigger[j] == At(buf[..], head, j)
        modifies bigger
      {
        ModuloIsWrap(head + i, buf.Length);
        bigger[i] := buf[Slot(head + i)];
      }
      Relaid(buf[..], head, count, bigger[..]);
      buf, head := bigger, 0;
    }

    method Append(blk: T)
      requires Valid() && count < buf.Length && nextBlockNum + count + 1 < TWO_TO_THE_64
      modifies this`count, buf
      ensures Valid() && Window() == old(Window()) + [blk]
    {
      Appended(buf[..], head, count, blk);
      ModuloIsWrap(head + count, buf.Length);
      buf[Slot(head + count)] := Some(blk);
      count := count + 1;
    }

    method Register(blockNumber: Uint64, blk: T) returns (alreadyTracked: bool, ok: bool)
      requires Valid() && nextBlockNum + count + 1 < TWO_TO_THE_64
      modifies this, buf
      ensures Valid() && nextBlockNum == old(nextBlockNum) && (buf == old(buf) || fresh(buf))
      ensures ok <==> nextBlockNum <= blockNumber <= nextBlockNum + old(count)
      ensures alreadyTracked <==> nextBlockNum <= blockNumber < nextBlockNum + old(count)
      ensures Window() == old(Window()) + if ok && !alreadyTracked then [blk] else []
    {
      var offset := Offset(blockNumber, nextBlockNum);
      OffsetClassifies(blockNumber, nextBlockNum, count);
      if offset < count { return true, true; }
      if offset > count { return false, false; }
      if count == buf.Length {
        Grow();
      }
      Append(blk);
      return false, true;
    }

    method Get(blockNumber: Uint64) returns (blk: Option<T>)
      requires Valid()
      ensures blk == if nextBlockNum <= blockNumber < nextBlockNum + count
                     then Some(Window()[blockNumber - nextBlockNum]) else None
    {
      var offset := Offset(blockNumber, nextBlockNum);
      OffsetClassifies(blockNumber, nextBlockNum, count);
      if offset >= count { return None; }
      ModuloIsWrap(head + offset, buf.Length);
      blk := buf[Slot(head + offset)];
      assert blk == At(buf[..], head, offset);
    }

    method NextBlockToCommit() returns (blk: Option<T>)
      requires Valid()
      ensures blk == if count == 0 then None else Some(Window()[0])
    {
      if count == 0 { return None; }
      blk := buf[head];
      assert blk == At(buf[..], head, 0);
    }

    method DropCommittedBlock()
      requires Valid() && count > 0
      modifies this`head, this`count, this`nextBlockNum, buf
      ensures Valid() && Window() == old(Window())[1..] && nextBlockNum == old(nextBlockNum) + 1
    {
      Dropped(buf[..], head, count);
      ModuloIsWrap(head + 1, buf.Length);
      buf[head] := None;
      head := Slot(head + 1);
      count := count - 1;
      nextBlockNum := (nextBlockNum + 1) % TWO_TO_THE_64;
    }
  }
}
