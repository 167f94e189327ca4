/** Views of the query service and the batchers they share. Callers, retirements and the aggregation
    window interleave at the grain of one locked section or one operation on the shared map. */
module QueryViews {
  import opened Common

  /** key stands for the parameters the batcher was created for. */
  datatype Batcher = Batcher(key: nat, refCounter: nat, cancelled: bool)

  /** What a view's lock holder is doing. found is what the map last showed for the view's parameters. */
  datatype Phase =
    | Quiet
    | Updating(found: nat)
    | Creating(missed: Option<nat>)
    | Leaving(left: nat)

  /** key stands for the view's parameters. */
  datatype View = View(key: nat, phase: Phase, batcher: Option<nat>, retired: bool)

  datatype State = State(max: nat, views: seq<View>, batchers: seq<Batcher>, latest: map<nat, nat>)

  datatype Event =
    | MakeView(key: nat)
    | Load(v: nat) | Join(v: nat) | CreateNew(v: nat) | GiveUp(v: nat)
    | Retire(v: nat) | Leave(v: nat)
    | CloseWindow(k: nat, b: nat)

  predicate Enabled(s: State, e: Event) {
    match e
    case MakeView(_) => true
    case Load(v) => v < |s.views| && s.views[v].phase.Quiet? && !s.views[v].retired && s.views[v].batcher.None?
    case Join(v) => v < |s.views| && s.views[v].phase.Updating? && s.views[v].phase.found < |s.batchers|
    case CreateNew(v) => v < |s.views| && s.views[v].phase.Creating?
    case GiveUp(v) => v < |s.views| && (s.views[v].phase.Updating? || s.views[v].phase.Creating?)
    case Retire(v) => v < |s.views| && s.views[v].phase.Quiet? && !s.views[v].retired
    case Leave(v) => v < |s.views| && s.views[v].phase.Leaving? && s.views[v].phase.left < |s.batchers|
    case CloseWindow(k, b) => k in s.latest && s.latest[k] == b
  }

  function SetView(s: State, v: nat, view: View): State
    requires v < |s.views|
  {
    s.(views := s.views[v := view])
  }

  function Look(latest: map<nat, nat>, key: nat): Phase {
    if key in latest then Updating(latest[key]) else Creating(None)
  }

  /** Joining takes a reference unless the batcher is cancelled or full. */
  function JoinStep(s: State, v: nat): State
    requires v < |s.views| && s.views[v].phase.Updating? && s.views[v].phase.found < |s.batchers|
  {
    var view, b := s.views[v], s.views[v].phase.found;
    if s.batchers[b].cancelled || s.batchers[b].refCounter >= s.max then
      SetView(s, v, view.(phase := Creating(Some(b))))
    else SetView(s, v, view.(phase := Quiet, batcher := Some(b)))
         .(batchers := s.batchers[b := s.batchers[b].(refCounter := s.batchers[b].refCounter + 1)])
  }

  /** A new batcher goes into the map if nobody was faster; otherwise it is forgotten. */
  function CreateStep(s: State, v: nat): State
    requires v < |s.views| && s.views[v].phase.Creating?
  {
    var view, missed, next := s.views[v], s.views[v].phase.missed, |s.batchers|;
    var mayStore :=
      if missed.None? then view.key !in s.latest
      else view.key in s.latest && s.latest[view.key] == missed.value;
    if mayStore then
      SetView(s, v, view.(phase := Updating(next)))
        .(batchers := s.batchers + [Batcher(view.key, 0, false)], latest := s.latest[view.key := next])
    else SetView(s, v, view.(phase := Look(s.latest, view.key)))
  }

  function LeaveStep(s: State, v: nat): State
    requires v < |s.views| && s.views[v].phase.Leaving? && s.views[v].phase.left < |s.batchers|
  {
    var b := s.views[v].phase.left;
    var refs := if s.batchers[b].refCounter > 0 then s.batchers[b].refCounter - 1 else 0;
    SetView(s, v, s.views[v].(phase := Quiet))
      .(batchers := s.batchers[b := Batcher(s.batchers[b].key, refs, s.batchers[b].cancelled || refs == 0)])
  }

  function Step(s: State, e: Event): State
    requires Enabled(s, e)
  {
    match e
    case MakeView(key) => s.(views := s.views + [View(key, Quiet, None, false)])
    case Load(v) => SetView(s, v, s.views[v].(phase := Look(s.latest, s.views[v].key)))
    case Join(v) => JoinStep(s, v)
    case CreateNew(v) => CreateStep(s, v)
    case GiveUp(v) => SetView(s, v, s.views[v].(phase := Quiet))
    case Retire(v) =>
      var view := s.views[v];
      SetView(s, v, View(view.key, if view.batcher.Some? then Leaving(view.batcher.value) else Quiet, None, true))
    case Leave(v) => LeaveStep(s, v)
    case CloseWindow(k, _) => s.(latest := s.latest - {k})
  }

  // ---------------------------------------------------------------------
  // References.

  /** The view is assigned to b, or retired from it and still to leave it. */
  predicate Uses(view: View, b: nat) {
    view.batcher == Some(b) || view.phase == Leaving(b)
  }

  function Users(views: seq<View>, b: nat): nat {
    if views == [] then 0 else Users(views[..|views| - 1], b) + if Uses(views[|views| - 1], b) then 1 else 0
  }

  lemma {:induction false} UsersUpdate(views: seq<View>, v: nat, view: View, b: nat)
    requires v < |views|
    ensures Users(views[v := view], b) + (if Uses(views[v], b) then 1 else 0) ==
            Users(views, b) + (if Uses(view, b) then 1 else 0)
  {
    var n := |views| - 1;
    if v == n {
      assert views[v := view][..n] == views[..n];
    } else {
      assert views[v := view][..n] == views[..n][v := view];
      UsersUpdate(views[..n], v, view, b);
    }
  }

  lemma {:induction false} UsersPositive(views: seq<View>, v: nat, b: nat)
    requires v < |views| && Uses(views[v], b)
    ensures Users(views, b) > 0
  {
    if v < |views| - 1 { UsersPositive(views[..|views| - 1], v, b); }
  }

  lemma {:induction false} UsersNone(views: seq<View>, b: nat)
    requires forall v :: 0 <= v < |views| ==> !Uses(views[v], b)
    ensures Users(views, b) == 0
  {
    if views != [] { UsersNone(views[..|views| - 1], b); }
  }

  predicate MadeFor(s: State, b: nat, key: nat) {
    b < |s.batchers| && s.batchers[b].key == key
  }

  predicate ViewOk(s: State, view: View) {
    && (view.batcher.Some? ==> view.phase.Quiet? && !view.retired && MadeFor(s, view.batcher.value, view.key))
    && (view.phase.Updating? ==> MadeFor(s, view.phase.found, view.key))
    && (view.phase.Leaving? ==> view.retired && MadeFor(s, view.phase.left, view.key))
    && (view.retired ==> view.phase.Quiet? || view.phase.Leaving?)
  }

  ghost predicate BatcherOk(s: State, b: nat)
    requires b < |s.batchers|
  {
    && s.batchers[b].refCounter == Users(s.views, b) <= s.max
    && (s.batchers[b].cancelled ==> s.batchers[b].refCounter == 0)
  }

  ghost predicate Inv(s: State) {
    && (forall v :: 0 <= v < |s.views| ==> ViewOk(s, s.views[v]))
    && (forall b :: 0 <= b < |s.batchers| ==> BatcherOk(s, b))
    && (forall k :: k in s.latest ==> MadeFor(s, s.latest[k], k))
  }

  lemma ViewsKept(s: State, e: Event)
    requires Inv(s) && Enabled(s, e)
    ensures var s' := Step(s, e);
            && (forall v :: 0 <= v < |s'.views| ==> ViewOk(s', s'.views[v]))
            && (forall k :: k in s'.latest ==> MadeFor(s', s'.latest[k], k))
  {
    var s' := Step(s, e);
    assert |s'.batchers| >= |s.batchers|;
    assert forall b :: 0 <= b < |s.batchers| ==> s'.batchers[b].key == s.batchers[b].key;
    forall v | 0 <= v < |s'.views| ensures ViewOk(s', s'.views[v]) {
      if v < |s.views| { assert ViewOk(s, s.views[v]); }
    }
  }

  /** A view that starts or stops using no batcher leaves every count alone. */
  lemma SameUsers(s: State, v: nat, view: View, b: nat)
    requires v < |s.views| && Uses(view, b) == Uses(s.views[v], b)
    ensures Users(s.views[v := view], b) == Users(s.views, b)
  {
    UsersUpdate(s.views, v, view, b);
  }

  lemma JoinKept(s: State, v: nat, b: nat)
    requires Inv(s) && Enabled(s, Join(v)) && b < |s.batchers|
    ensures BatcherOk(JoinStep(s, v), b)
  {
    var s' := JoinStep(s, v);
    assert BatcherOk(s, b) && ViewOk(s, s.views[v]);
    UsersUpdate(s.views, v, s'.views[v], b);
  }

  lemma LeaveKept(s: State, v: nat, b: nat)
    requires Inv(s) && Enabled(s, Leave(v)) && b < |s.batchers|
    ensures BatcherOk(LeaveStep(s, v), b)
  {
    var s' := LeaveStep(s, v);
    assert BatcherOk(s, b) && ViewOk(s, s.views[v]);
    UsersUpdate(s.views, v, s'.views[v], b);
  }

  lemma CreateKept(s: State, v: nat, b: nat)
    requires Inv(s) && Enabled(s, CreateNew(v)) && b < |CreateStep(s, v).batchers|
    ensures BatcherOk(CreateStep(s, v), b)
  {
    var s' := CreateStep(s, v);
    assert ViewOk(s, s.views[v]);
    UsersUpdate(s.views, v, s'.views[v], b);
    if b < |s.batchers| {
      assert BatcherOk(s, b);
    } else {
      forall u | 0 <= u < |s.views| ensures !Uses(s.views[u], b) { assert ViewOk(s, s.views[u]); }
      UsersNone(s.views, b);
    }
  }

  lemma OtherKept(s: State, e: Event, b: nat)
    requires Inv(s) && Enabled(s, e) && !e.Join? && !e.Leave? && !e.CreateNew? && b < |s.batchers|
    ensures BatcherOk(Step(s, e), b)
  {
    var s' := Step(s, e);
    assert BatcherOk(s, b);
    if e.MakeView? {
      assert s'.views[..|s.views|] == s.views;
    } else if !e.CloseWindow? {
      assert ViewOk(s, s.views[e.v]);
      SameUsers(s, e.v, s'.views[e.v], b);
    }
  }

  lemma StepKeepsInv(s: State, e: Event)
    requires Inv(s) && Enabled(s, e)
    ensures Inv(Step(s, e))
  {
    ViewsKept(s, e);
    forall b | 0 <= b < |Step(s, e).batchers| ensures BatcherOk(Step(s, e), b) {
      match e
      case Join(v) => JoinKept(s, v, b);
      case Leave(v) => LeaveKept(s, v, b);
      case CreateNew(v) => CreateKept(s, v, b);
      case _ => OtherKept(s, e, b);
    }
  }

  // ---------------------------------------------------------------------
  // Whole runs.

  predicate Taken(states: seq<State>, events: seq<Event>, i: nat) {
    i < |events| && i + 1 < |states| && Enabled(states[i], events[i]) && states[i + 1] == Step(states[i], events[i])
  }

  ghost predicate Run(states: seq<State>, events: seq<Event>) {
    && |states| == |events| + 1 && states[0] == State(states[0].max, [], [], map[])
    && forall i :: 0 <= i < |events| ==> Taken(states, events, i)
  }

  lemma {:induction false} RunKeepsInv(states: seq<State>, events: seq<Event>, k: nat)
    requires Run(states, events) && k < |states|
    ensures Inv(states[k])
  {
    if k > 0 {
      RunKeepsInv(states, events, k - 1);
      assert Taken(states, events, k - 1);
      StepKeepsInv(states[k - 1], events[k - 1]);
    }
  }

  /** In every state a batcher's count is its assigned views and those retired but still to leave, and
      stays within the maximum; nobody uses a cancelled batcher; and no retired view is assigned. */
  lemma ReferencesCounted(states: seq<State>, events: seq<Event>, k: nat)
    requires Run(states, events) && k < |states|
    ensures var s := states[k];
            && (forall b :: 0 <= b < |s.batchers| ==> s.batchers[b].refCounter == Users(s.views, b) <= s.max)
            && (forall v, b :: 0 <= v < |s.views| && 0 <= b < |s.batchers| && s.batchers[b].cancelled ==>
                 !Uses(s.views[v], b))
            && (forall v :: 0 <= v < |s.views| && s.views[v].retired ==> s.views[v].batcher.None?)
  {
    RunKeepsInv(states, events, k);
    var s := states[k];
    forall v, b | 0 <= v < |s.views| && 0 <= b < |s.batchers| && s.batchers[b].cancelled ensures !Uses(s.views[v], b) {
      assert BatcherOk(s, b);
      if Uses(s.views[v], b) { UsersPositive(s.views, v, b); }
    }
    forall b | 0 <= b < |s.batchers| ensures s.batchers[b].refCounter == Users(s.views, b) <= s.max {
      assert BatcherOk(s, b);
    }
    forall v | 0 <= v < |s.views| && s.views[v].retired ensures s.views[v].batcher.None? {
      assert ViewOk(s, s.views[v]);
    }
  }

  /** A step cancels a batcher exactly when its last user leaves it; a cancelled batcher stays cancelled; and
      a view is assigned only to a batcher that is not. */
  lemma CancelledByLastLeave(states: seq<State>, events: seq<Event>, k: nat, b: nat)
    requires Run(states, events) && k < |events| && b < |states[k].batchers|
    ensures var s, s' := states[k], states[k + 1];
            && b < |s'.batchers| && |s.views| <= |s'.views|
            && (s.batchers[b].cancelled ==> s'.batchers[b].cancelled)
            && (!s.batchers[b].cancelled ==>
                  (s'.batchers[b].cancelled <==>
                     events[k].Leave? && events[k].v < |s.views| && s.views[events[k].v].phase == Leaving(b) &&
                       Users(s.views, b) == 1))
            && (forall v :: 0 <= v < |s.views| && s'.views[v].batcher == Some(b) && s.views[v].batcher.None? ==>
                  !s.batchers[b].cancelled && !s'.views[v].retired)
  {
    RunKeepsInv(states, events, k);
    RunKeepsInv(states, events, k + 1);
    assert Taken(states, events, k);
    var s, s' := states[k], states[k + 1];
    assert BatcherOk(s, b) && BatcherOk(s', b);
    forall v | 0 <= v < |s.views| && s'.views[v].batcher == Some(b) && s.views[v].batcher.None?
      ensures !s.batchers[b].cancelled && !s'.views[v].retired
    {
      assert ViewOk(s', s'.views[v]);
    }
    if events[k].Leave? {
      var v := events[k].v;
      UsersUpdate(s.views, v, s'.views[v], b);
      if Uses(s.views[v], b) { UsersPositive(s.views, v, b); }
    }
  }

  // ---------------------------------------------------------------------
  // Whose batcher a view gets.

  function KeysAsked(events: seq<Event>): seq<nat> {
    if events == [] then [] else
      var n := |events| - 1;
      KeysAsked(events[..n]) + if events[n].MakeView? then [events[n].key] else []
  }

  lemma {:induction false} ViewsAsAsked(states: seq<State>, events: seq<Event>, k: nat)
    requires Run(states, events) && k < |states|
    ensures |states[k].views| == |KeysAsked(events[..k])|
    ensures forall v :: 0 <= v < |states[k].views| ==> states[k].views[v].key == KeysAsked(events[..k])[v]
  {
    if k > 0 {
      ViewsAsAsked(states, events, k - 1);
      assert Taken(states, events, k - 1);
      assert events[..k][..k - 1] == events[..k - 1];
    }
  }

  /** In every state a view is assigned only to a batcher that was created for the parameters it was asked
      with. */
  lemma OwnParameters(states: seq<State>, events: seq<Event>, k: nat, v: nat)
    requires Run(states, events) && k < |states| && v < |states[k].views| && states[k].views[v].batcher.Some?
    ensures v < |KeysAsked(events[..k])|
    ensures var b := states[k].views[v].batcher.value;
            b < |states[k].batchers| && states[k].batchers[b].key == KeysAsked(events[..k])[v]
  {
    RunKeepsInv(states, events, k);
    ViewsAsAsked(states, events, k);
    assert ViewOk(states[k], states[k].views[v]);
  }

  lemma Snoc(states: seq<State>, events: seq<Event>, e: Event) returns (states': seq<State>, events': seq<Event>)
    requires Run(states, events) && Enabled(states[|events|], e)
    ensures Run(states', events') && events' == events + [e]
    ensures states'[|events'|] == Step(states[|events|], e)
  {
    states', events' := states + [Step(states[|events|], e)], events + [e];
    forall i | 0 <= i < |events'| ensures Taken(states', events', i) {
      assert i < |events| ==> Taken(states, events, i);
    }
  }

  predicate Assigned(s: State, v: nat) {
    v < |s.views| && s.views[v].batcher.Some? && s.views[v].phase.Quiet?
  }

  predicate Joinable(s: State, b: nat) {
    b < |s.batchers| && !s.batchers[b].cancelled && s.batchers[b].refCounter < s.max
  }

  lemma JoinFound(states: seq<State>, events: seq<Event>, v: nat) returns (states': seq<State>, events': seq<Event>)
    requires Run(states, events) && v < |states[|events|].views|
    requires var s := states[|events|]; s.views[v].phase.Updating? && Joinable(s, s.views[v].phase.found)
    ensures Run(states', events') && events' == events + [Join(v)] && Assigned(states'[|events'|], v)
    ensures states'[|events'|].views[v].batcher == Some(states[|events|].views[v].phase.found)
  {
    states', events' := Snoc(states, events, Join(v));
  }

  lemma CreateAndJoin(states: seq<State>, events: seq<Event>, v: nat) returns (states': seq<State>, events': seq<Event>)
    requires Run(states, events) && v < |states[|events|].views| && states[|events|].max > 0
    requires var s := states[|events|];
             && s.views[v].phase.Creating?
             && (if s.views[v].phase.missed.None? then s.views[v].key !in s.latest
                 else s.views[v].key in s.latest && s.latest[s.views[v].key] == s.views[v].phase.missed.value)
    ensures Run(states', events') && events' == events + [CreateNew(v), Join(v)] && Assigned(states'[|events'|], v)
    ensures states'[|events'|].views[v].batcher == Some(|states[|events|].batchers|)
  {
    states', events' := Snoc(states, events, CreateNew(v));
    states', events' := JoinFound(states', events', v);
  }

  /** A view that looks for a batcher while nobody interferes gets one: the one its parameters have if it can be
      joined, a new one otherwise. */
  lemma FindsBatcher(states: seq<State>, events: seq<Event>, v: nat) returns (states': seq<State>, events': seq<Event>)
    requires Run(states, events) && Enabled(states[|events|], Load(v)) && states[|events|].max > 0
    ensures Run(states', events') && events <= events' && Assigned(states'[|events'|], v)
    ensures var s, key := states[|events|], states[|events|].views[v].key;
            states'[|events'|].views[v].batcher ==
              if key in s.latest && Joinable(s, s.latest[key]) then Some(s.latest[key]) else Some(|s.batchers|)
  {
    ghost var s := states[|events|];
    ghost var key := s.views[v].key;
    RunKeepsInv(states, events, |events|);
    states', events' := Snoc(states, events, Load(v));
    if key in s.latest && Joinable(s, s.latest[key]) {
      states', events' := JoinFound(states', events', v);
    } else {
      if key in s.latest {
        assert MadeFor(s, s.latest[key], key);
        states', events' := Snoc(states', events', Join(v));
      }
      states', events' := CreateAndJoin(states', events', v);
    }
  }

  /** A view that was slower than another in storing a new batcher forgets its own and takes the one that is
      there, if it can be joined. */
  lemma LoserJoins(states: seq<State>, events: seq<Event>, v: nat) returns (states': seq<State>, events': seq<Event>)
    requires Run(states, events) && v < |states[|events|].views|
    requires var s := states[|events|];
             && s.views[v].phase.Creating? && s.views[v].key in s.latest && Joinable(s, s.latest[s.views[v].key])
             && s.views[v].phase.missed != Some(s.latest[s.views[v].key])
    ensures Run(states', events') && events' == events + [CreateNew(v), Join(v)] && Assigned(states'[|events'|], v)
    ensures states'[|events'|].views[v].batcher == Some(states[|events|].latest[states[|events|].views[v].key])
    ensures |states'[|events'|].batchers| == |states[|events|].batchers|
  {
    states', events' := Snoc(states, events, CreateNew(v));
    states', events' := Snoc(states', events', Join(v));
  }

  /** Once the window of a batcher is closed, a view with its parameters gets a new one. */
  lemma NewAfterWindow(states: seq<State>, events: seq<Event>, v: nat, b: nat)
    returns (states': seq<State>, events': seq<Event>)
    requires Run(states, events) && Enabled(states[|events|], Load(v)) && states[|events|].max > 0
    requires Enabled(states[|events|], CloseWindow(states[|events|].views[v].key, b))
    ensures Run(states', events') && events <= events' && Assigned(states'[|events'|], v)
    ensures states'[|events'|].views[v].batcher == Some(|states[|events|].batchers|)
  {
    states', events' := Snoc(states, events, CloseWindow(states[|events|].views[v].key, b));
    states', events' := FindsBatcher(states', events', v);
  }

  /** A view that gave up its search is as it was before, and may search again. */
  lemma SearchAgain(states: seq<State>, events: seq<Event>, v: nat) returns (states': seq<State>, events': seq<Event>)
    requires Run(states, events) && Enabled(states[|events|], Load(v))
    ensures Run(states', events') && events' == events + [Load(v), GiveUp(v)]
    ensures states'[|events'|] == states[|events|]
  {
    states', events' := Snoc(states, events, Load(v));
    states', events' := Snoc(states', events', GiveUp(v));
    assert states'[|events'|].views == states[|events|].views;
  }

  /** A retired view gives its reference back. */
  lemma GivesBack(states: seq<State>, events: seq<Event>, v: nat) returns (states': seq<State>, events': seq<Event>)
    requires Run(states, events) && Assigned(states[|events|], v)
    ensures Run(states', events') && events' == events + [Retire(v), Leave(v)]
    ensures var s, s', b := states[|events|], states'[|events'|], states[|events|].views[v].batcher.value;
            && s'.views == s.views[v := View(s.views[v].key, Quiet, None, true)] && b < |s.batchers| == |s'.batchers|
            && s'.batchers == s.batchers[b := s'.batchers[b]] && s'.batchers[b].key == s.batchers[b].key
            && s'.batchers[b].refCounter == s.batchers[b].refCounter - 1
            && (s'.batchers[b].cancelled <==> s.batchers[b].refCounter == 1)
  {
    ghost var s := states[|events|];
    RunKeepsInv(states, events, |events|);
    ghost var b := s.views[v].batcher.value;
    assert ViewOk(s, s.views[v]) && BatcherOk(s, b);
    UsersPositive(s.views, v, b);
    states', events' := Snoc(states, events, Retire(v));
    states', events' := Snoc(states', events', Leave(v));
  }
}
