/**
 Rendering a histogram while others observe.  An observation is two atomic updates, the bucket and then the count;
 the renderer loads the buckets one at a time and the count last.
 */
module HistogramRace {
  import opened Wrappers

  /** `between` observations have updated their bucket and not the count; `above` ones were counted without a bucket;
      `missed` ones updated a bucket that the rendering had loaded already. */
  datatype State = State(
    buckets: seq<nat>, count: nat, between: nat, above: nat, loaded: nat, cumulative: nat, missed: nat)

  datatype Action =
    | AddToBucket(b: nat)
    | AddToCount
    | CountAbove
    | BeginRender
    | LoadBucket

  function Step(s: State, a: Action): Option<State> {
    match a
    case AddToBucket(b) =>
      if b < |s.buckets|
      then Some(s.(buckets := s.buckets[b := s.buckets[b] + 1], between := s.between + 1,
                   missed := s.missed + (if b < s.loaded then 1 else 0)))
      else None
    case AddToCount => if s.between > 0 then Some(s.(count := s.count + 1, between := s.between - 1)) else None
    case CountAbove => Some(s.(count := s.count + 1, above := s.above + 1))
    case BeginRender => Some(s.(loaded := 0, cumulative := 0, missed := 0))
    case LoadBucket =>
      if s.loaded < |s.buckets|
      then Some(s.(loaded := s.loaded + 1, cumulative := s.cumulative + s.buckets[s.loaded])) else None
  }

  function Run(s: State, actions: seq<Action>): Option<State>
    decreases |actions|
  {
    if actions == [] then Some(s)
    else match Step(s, actions[0]) case None => None case Some(t) => Run(t, actions[1..])
  }

  function SumTo(buckets: seq<nat>, n: nat): nat
    requires n <= |buckets|
  {
    if n == 0 then 0 else SumTo(buckets, n - 1) + buckets[n - 1]
  }

  lemma {:induction false} SumToBump(buckets: seq<nat>, b: nat, n: nat)
    requires b < |buckets| && n <= |buckets|
    ensures SumTo(buckets[b := buckets[b] + 1], n) == SumTo(buckets, n) + (if b < n then 1 else 0)
  {
    if n == 0 {
    } else {
      SumToBump(buckets, b, n - 1);
    }
  }

  predicate Inv(s: State) {
    && s.loaded <= |s.buckets|
    && SumTo(s.buckets, |s.buckets|) + s.above == s.count + s.between
    && s.cumulative + s.missed == SumTo(s.buckets, s.loaded)
  }

  lemma StepKeepsInv(s: State, a: Action)
    requires Inv(s) && Step(s, a).Some?
    ensures Inv(Step(s, a).value)
  {
    if a.AddToBucket? {
      SumToBump(s.buckets, a.b, |s.buckets|);
      SumToBump(s.buckets, a.b, s.loaded);
    }
  }

  lemma {:induction false} RunKeepsInv(s: State, actions: seq<Action>)
    requires Inv(s) && Run(s, actions).Some?
    ensures Inv(Run(s, actions).value)
    decreases |actions|
  {
    if actions == [] {
    } else {
      StepKeepsInv(s, actions[0]);
      RunKeepsInv(Step(s, actions[0]).value, actions[1..]);
    }
  }

  function Quiet(buckets: seq<nat>, above: nat): State {
    State(buckets, SumTo(buckets, |buckets|) + above, 0, above, 0, 0, 0)
  }

  /** An observation that is not interrupted raises its bucket, if there is one, and the count. */
  lemma WholeObservation(s: State, b: nat)
    requires b <= |s.buckets| && s.loaded == 0
    ensures var t := Run(s, if b < |s.buckets| then [AddToBucket(b), AddToCount] else [CountAbove]);
            && t.Some? && t.value.count == s.count + 1 && t.value.between == s.between
            && t.value.buckets == if b < |s.buckets| then s.buckets[b := s.buckets[b] + 1] else s.buckets
  {
    assert [AddToBucket(b), AddToCount][1..] == [AddToCount] && [AddToCount][1..] == [] && [CountAbove][1..] == [];
    if b < |s.buckets| {
      var u := Step(s, AddToBucket(b)).value;
      assert Run(u, [AddToCount]) == Step(u, AddToCount);
    }
  }

  predicate Rendered(s: State) {
    s.loaded == |s.buckets|
  }

  /** However many observers and renderings there have been since the histogram was last at rest: what a complete
      rendering shows for the last finite bucket exceeds the count loaded at its end exactly when more observations are
      between their two updates than were above all bounds or came after their bucket was loaded; the excess is the
      difference. */
  lemma RenderedExcessIsInFlight(buckets: seq<nat>, above: nat, actions: seq<Action>)
    requires Run(Quiet(buckets, above), actions).Some? && Rendered(Run(Quiet(buckets, above), actions).value)
    ensures var s := Run(Quiet(buckets, above), actions).value;
            && s.cumulative + s.above + s.missed == s.count + s.between
            && (s.cumulative > s.count <==> s.between > s.above + s.missed)
  {
    RunKeepsInv(Quiet(buckets, above), actions);
  }

  function Loads(n: nat): seq<Action> {
    if n == 0 then [] else [LoadBucket] + Loads(n - 1)
  }

  lemma {:induction false} LoadsTheRest(s: State)
    requires Inv(s)
    ensures var t := Run(s, Loads(|s.buckets| - s.loaded));
            && t.Some? && t.value == s.(loaded := |s.buckets|, cumulative := t.value.cumulative)
            && t.value.cumulative + s.missed == SumTo(s.buckets, |s.buckets|)
    decreases |s.buckets| - s.loaded
  {
    if s.loaded == |s.buckets| {
      assert Loads(0) == [];
    } else {
      assert ([LoadBucket] + Loads(|s.buckets| - s.loaded - 1))[1..] == Loads(|s.buckets| - s.loaded - 1);
      LoadsTheRest(Step(s, LoadBucket).value);
    }
  }

  /** No observation need interfere: in any state of any run, a rendering that is not interrupted at all shows a last
      finite bucket above the count exactly when more observations are between their two updates than were above. */
  lemma BucketExceedsCountIff(buckets: seq<nat>, above: nat, actions: seq<Action>)
    requires Run(Quiet(buckets, above), actions).Some?
    ensures var s := Run(Quiet(buckets, above), actions).value;
            var t := Run(s, [BeginRender] + Loads(|s.buckets|));
            && t.Some? && Rendered(t.value) && t.value.count == s.count
            && t.value.cumulative + s.above == s.count + s.between
            && (t.value.cumulative > t.value.count <==> s.between > s.above)
  {
    var s := Run(Quiet(buckets, above), actions).value;
    RunKeepsInv(Quiet(buckets, above), actions);
    StepKeepsInv(s, BeginRender);
    LoadsTheRest(Step(s, BeginRender).value);
    assert ([BeginRender] + Loads(|s.buckets|))[1..] == Loads(|s.buckets|);
  }

  /** Such states are reached: an observer that has updated the only bucket and not the count. */
  lemma BucketCanExceedCount()
    ensures var s := Run(Quiet([0], 0), [AddToBucket(0), LoadBucket]);
            s.Some? && Rendered(s.value) && s.value.cumulative > s.value.count
  {
    assert [AddToBucket(0), LoadBucket][1..] == [LoadBucket];
    assert SumTo([0], 1) == 0;
  }
}
