/** The coordinator's side of the validator-committers: which transaction is being validated where. */
module TxTracking {
  import opened Common

  /** A dependency-graph node: its identity and the height of its transaction. */
  datatype Node = Node(id: nat, height: Height)

  datatype TxStatus = TxStatus(height: Height, code: nat)

  type Tracking = map<Height, Node>

  function Stored(m: Tracking, nodes: seq<Node>): Tracking {
    if nodes == [] then m
    else Stored(m, nodes[..|nodes| - 1])[nodes[|nodes| - 1].height := nodes[|nodes| - 1]]
  }

  lemma {:induction false} StoredHead(m: Tracking, nodes: seq<Node>)
    requires nodes != []
    ensures Stored(m, nodes) == Stored(m[nodes[0].height := nodes[0]], nodes[1..])
  {
    var n := |nodes| - 1;
    if n > 0 {
      StoredHead(m, nodes[..n]);
      assert nodes[..n][1..] == nodes[1..][..n - 1];
    }
  }

  predicate WellKeyed(m: Tracking) {
    forall h :: h in m ==> m[h].height == h
  }

  function Heights(statuses: seq<TxStatus>): set<Height> {
    if statuses == [] then {} else Heights(statuses[..|statuses| - 1]) + {statuses[|statuses| - 1].height}
  }

  lemma {:induction false} HeightsElems(statuses: seq<TxStatus>, h: Height)
    ensures h in Heights(statuses) <==> exists s :: s in statuses && s.height == h
  {
    if statuses != [] {
      var n := |statuses| - 1;
      assert statuses == statuses[..n] + [statuses[n]];
      HeightsElems(statuses[..n], h);
    }
  }

  lemma HeightsSnoc(front: seq<TxStatus>, last: TxStatus)
    ensures Heights(front + [last]) == Heights(front) + {last.height}
  {
    assert (front + [last])[..|front|] == front;
  }

  /** The status at i is the first one for a tracked transaction. */
  predicate Matches(m: Tracking, statuses: seq<TxStatus>, i: nat)
    requires i < |statuses|
  {
    statuses[i].height in m && statuses[i].height !in Heights(statuses[..i])
  }

  /** The statuses that find their transaction, in order. */
  function Matched(m: Tracking, statuses: seq<TxStatus>): seq<TxStatus> {
    if statuses == [] then [] else
      var n := |statuses| - 1;
      Matched(m, statuses[..n]) + if Matches(m, statuses, n) then [statuses[n]] else []
  }

  /** nodes are what the statuses' heights were tracking. */
  predicate NodesFor(m: Tracking, statuses: seq<TxStatus>, nodes: seq<Node>) {
    |nodes| == |statuses| && forall i :: 0 <= i < |nodes| ==>
      statuses[i].height in m && m[statuses[i].height] == nodes[i]
  }

  lemma MatchedStep(m: Tracking, statuses: seq<TxStatus>, i: nat)
    requires i < |statuses|
    ensures Heights(statuses[..i + 1]) == Heights(statuses[..i]) + {statuses[i].height}
    ensures Matched(m, statuses[..i + 1]) ==
            Matched(m, statuses[..i]) + if Matches(m, statuses, i) then [statuses[i]] else []
  {
    assert statuses[..i + 1][..i] == statuses[..i];
  }

  /** Every tracked transaction that is reported is matched exactly once, and nothing else is. */
  lemma {:induction false} MatchedOnce(m: Tracking, statuses: seq<TxStatus>)
    ensures forall h :: h in Heights(Matched(m, statuses)) <==> h in Heights(statuses) && h in m
    ensures |Matched(m, statuses)| == |Heights(Matched(m, statuses))|
  {
    if statuses != [] {
      var n := |statuses| - 1;
      var front := Matched(m, statuses[..n]);
      MatchedOnce(m, statuses[..n]);
      HeightsSnoc(front, statuses[n]);
      assert Matched(m, statuses) == if Matches(m, statuses, n) then front + [statuses[n]] else front;
    }
  }

  /** The nodes handed on are those the answered heights were tracking. */
  lemma TakenNodes(m: Tracking, statuses: seq<TxStatus>, nodes: seq<Node>)
    requires WellKeyed(m) && NodesFor(m, Matched(m, statuses), nodes)
    ensures forall n :: n in nodes <==> n.height in Heights(statuses) && n.height in m && m[n.height] == n
  {
    MatchedOnce(m, statuses);
    var matched := Matched(m, statuses);
    forall n | n in nodes ensures n.height in Heights(statuses) && n.height in m && m[n.height] == n {
      var i :| 0 <= i < |nodes| && nodes[i] == n;
      assert matched[i] in matched;
      HeightsElems(matched, n.height);
    }
    forall n: Node | n.height in Heights(statuses) && n.height in m && m[n.height] == n ensures n in nodes {
      HeightsElems(matched, n.height);
      var s :| s in matched && s.height == n.height;
      var i :| 0 <= i < |matched| && matched[i] == s;
      assert nodes[i] == n;
    }
  }

  /** The statuses whose index is not listed. */
  function Without(statuses: seq<TxStatus>, drop: seq<nat>): seq<TxStatus> {
    if statuses == [] then [] else
      var n := |statuses| - 1;
      Without(statuses[..n], drop) + if n in drop then [] else [statuses[n]]
  }

  lemma {:induction false} WithoutNone(statuses: seq<TxStatus>, drop: seq<nat>)
    requires forall i :: i in drop ==> i >= |statuses|
    ensures Without(statuses, drop) == statuses
  {
    if statuses != [] {
      WithoutNone(statuses[..|statuses| - 1], drop);
    }
  }

  /** Deleting the largest index first leaves the smaller ones where they were. */
  lemma {:induction false} WithoutLast(statuses: seq<TxStatus>, drop: seq<nat>, i: nat)
    requires i < |statuses| && forall j :: j in drop ==> j < i
    ensures Without(statuses, drop + [i]) == Without(statuses[..i] + statuses[i + 1..], drop)
  {
    var n := |statuses| - 1;
    var cut := statuses[..i] + statuses[i + 1..];
    if i == n {
      assert cut == statuses[..n];
      SameWithout(statuses[..n], drop, drop + [i]);
    } else {
      WithoutLast(statuses[..n], drop, i);
      assert cut[..n - 1] == statuses[..n][..i] + statuses[..n][i + 1..];
      assert cut[n - 1] == statuses[n];
    }
  }

  lemma {:induction false} SameWithout(statuses: seq<TxStatus>, drop: seq<nat>, drop': seq<nat>)
    requires forall i :: 0 <= i < |statuses| ==> (i in drop <==> i in drop')
    ensures Without(statuses, drop) == Without(statuses, drop')
  {
    if statuses != [] {
      SameWithout(statuses[..|statuses| - 1], drop, drop');
    }
  }

  predicate Ascending(s: seq<nat>) {
    forall i, j :: 0 <= i < j < |s| ==> s[i] < s[j]
  }

  lemma {:induction false} MatchedIsWithout(m: Tracking, statuses: seq<TxStatus>, untracked: seq<nat>)
    requires forall i :: 0 <= i < |statuses| ==> (i in untracked <==> !Matches(m, statuses, i))
    ensures Without(statuses, untracked) == Matched(m, statuses)
  {
    if statuses != [] {
      var n := |statuses| - 1;
      assert forall i :: 0 <= i < n ==> statuses[..n][..i] == statuses[..i];
      MatchedIsWithout(m, statuses[..n], untracked);
    }
  }

  /** The statuses of one answer with the untracked ones cut out, from the back. */
  method DropUntracked(statuses: seq<TxStatus>, untracked: seq<nat>) returns (r: seq<TxStatus>)
    requires Ascending(untracked) && forall i :: i in untracked ==> i < |statuses|
    ensures r == Without(statuses, untracked)
  {
    r := statuses;
    assert untracked[..|untracked|] == untracked;
    assert forall j :: 0 <= j < |untracked| ==> untracked[j] in untracked;
    var k := |untracked|;
    while k > 0
      invariant 0 <= k <= |untracked| && forall j :: 0 <= j < k ==> untracked[j] < |r|
      invariant Without(r, untracked[..k]) == Without(statuses, untracked)
    {
      k := k - 1;
      var i := untracked[k];
      assert untracked[..k + 1] == untracked[..k] + [i];
      WithoutLast(r, untracked[..k], i);
      r := r[..i] + r[i + 1..];
    }
    WithoutNone(r, untracked[..0]);
  }

  predicate UntrackedUpTo(m: Tracking, statuses: seq<TxStatus>, untracked: seq<nat>, n: nat)
    requires n <= |statuses|
  {
    && Ascending(untracked) && (forall k :: 0 <= k < |untracked| ==> untracked[k] < n)
    && forall j: nat :: j < n ==> (j in untracked <==> !Matches(m, statuses, j))
  }

  /** Looks each height up and deletes it: nodes for the statuses that match, indices of those that do not. */
  method LoadAndDelete(m: Tracking, statuses: seq<TxStatus>)
    returns (left: Tracking, nodes: seq<Node>, untracked: seq<nat>)
    ensures left == m - Heights(statuses)
    ensures NodesFor(m, Matched(m, statuses), nodes)
    ensures UntrackedUpTo(m, statuses, untracked, |statuses|)
  {
    left, nodes, untracked := m, [], [];
    for i := 0 to |statuses|
      invariant left == m - Heights(statuses[..i])
      invariant NodesFor(m, Matched(m, statuses[..i]), nodes)
      invariant UntrackedUpTo(m, statuses, untracked, i)
    {
      MatchedStep(m, statuses, i);
      var h := statuses[i].height;
      if h !in left {
        untracked := untracked + [i];
      } else {
        nodes := nodes + [left[h]];
        left := left - {h};
      }
    }
    assert statuses[..|statuses|] == statuses;
  }

  class ValidatorCommitter {
    var txBeingValidated: Tracking

    constructor ()
      ensures txBeingValidated == map[]
    {
      txBeingValidated := map[];
    }

    /** Stores the nodes of a batch one by one: TxOwnership takes each as a step of its own. */
    method AddTxsBeingValidated(nodes: seq<Node>)
      modifies this
      ensures txBeingValidated == Stored(old(txBeingValidated), nodes)
    {
      for i := 0 to |nodes|
        invariant txBeingValidated == Stored(old(txBeingValidated), nodes[..i])
      {
        assert nodes[..i + 1][..i] == nodes[..i];
        txBeingValidated := txBeingValidated[nodes[i].height := nodes[i]];
      }
      assert nodes[..|nodes|] == nodes;
    }

    method GetTxs(statuses: seq<TxStatus>) returns (nodes: seq<Node>, untracked: seq<nat>)
      modifies this
      ensures txBeingValidated == old(txBeingValidated) - Heights(statuses)
      ensures NodesFor(old(txBeingValidated), Matched(old(txBeingValidated), statuses), nodes)
      ensures Ascending(untracked)
      ensures forall i: nat :: i in untracked <==> i < |statuses| && !Matches(old(txBeingValidated), statuses, i)
    {
      var left;
      left, nodes, untracked := LoadAndDelete(txBeingValidated, statuses);
      txBeingValidated := left;
    }

    method CheckpointNodeToRelease(feedback: Option<Height>) returns (node: Option<Node>)
      modifies this
      ensures node == if feedback.Some? && feedback.value in old(txBeingValidated)
                      then Some(old(txBeingValidated)[feedback.value]) else None
      ensures txBeingValidated ==
                if feedback.Some? then old(txBeingValidated) - {feedback.value} else old(txBeingValidated)
    {
      if feedback.None? || feedback.value !in txBeingValidated { return None; }
      node := Some(txBeingValidated[feedback.value]);
      txBeingValidated := txBeingValidated - {feedback.value};
    }

    /** One answer of the service: what is forwarded is exactly the tracked part of it, and the nodes
        of what is forwarded leave the tracking map. */
    method Receive(statuses: seq<TxStatus>, feedback: Option<Height>)
      returns (forwarded: seq<TxStatus>, nodes: seq<Node>)
      requires WellKeyed(txBeingValidated)
      modifies this
      ensures WellKeyed(txBeingValidated)
      ensures forwarded == Matched(old(txBeingValidated), statuses)
      ensures txBeingValidated ==
              old(txBeingValidated) - Heights(statuses) - if feedback.Some? then {feedback.value} else {}
      ensures forall n :: n in nodes <==>
                && n.height in old(txBeingValidated) && old(txBeingValidated)[n.height] == n
                && n.height !in txBeingValidated
      ensures |nodes| == |forwarded| +
                if feedback.Some? && feedback.value in old(txBeingValidated) - Heights(statuses) then 1 else 0
    {
      ghost var m := txBeingValidated;
      var untracked;
      nodes, untracked := GetTxs(statuses);
      forwarded := DropUntracked(statuses, untracked);
      MatchedIsWithout(m, statuses, untracked);
      TakenNodes(m, statuses, nodes);
      var node := CheckpointNodeToRelease(feedback);
      if node.Some? { nodes := nodes + [node.value]; }
    }

    method RecoverPendingTransactions() returns (pending: seq<Node>)
      requires WellKeyed(txBeingValidated)
      modifies this
      ensures txBeingValidated == map[]
      ensures multiset(pending) == multiset(old(txBeingValidated).Values)
    {
      pending := [];
      var todo := txBeingValidated.Keys;
      while todo != {}
        invariant todo <= txBeingValidated.Keys && txBeingValidated == old(txBeingValidated)
        invariant multiset(pending) == multiset(set h | h in txBeingValidated.Keys - todo :: txBeingValidated[h])
        decreases todo
      {
        var h :| h in todo;
        ghost var was := set k | k in txBeingValidated.Keys - todo :: txBeingValidated[k];
        todo := todo - {h};
        assert (set k | k in txBeingValidated.Keys - todo :: txBeingValidated[k]) == was + {txBeingValidated[h]};
        assert txBeingValidated[h] !in was;
        pending := pending + [txBeingValidated[h]];
      }
      assert (set h | h in txBeingValidated.Keys :: txBeingValidated[h]) == txBeingValidated.Values;
      txBeingValidated := map[];
    }
  }
}
