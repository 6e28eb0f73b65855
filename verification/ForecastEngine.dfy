/** Settings, the aggregation of the CPU series and the replica arithmetic of one forecast. */
module ForecastEngine {
  import opened Wrappers

  datatype Settings = Settings(
    mode: string, threshold: real, capacity: real, predictionLength: int,
    minReplicas: int, maxReplicas: int, interval: int, ttl: int, fakeReplicas: Option<int>)

  datatype SettingsError = BadMode | MaxBelowMin | TtlBelowInterval | BadFakeReplicas

  /** The checks of validate(), in order. */
  function Validate(s: Settings): Option<SettingsError> {
    if s.mode != "disabled" && s.mode != "shadow" && s.mode != "active" then Some(BadMode)
    else if s.maxReplicas < s.minReplicas then Some(MaxBelowMin)
    else if s.ttl < s.interval then Some(TtlBelowInterval)
    else if s.fakeReplicas.Some? && s.fakeReplicas.value <= 0 then Some(BadFakeReplicas)
    else None
  }

  /** Settings are valid exactly when the mode is known and the numbers fit together. */
  lemma ValidateIff(s: Settings)
    ensures Validate(s).None? <==>
      && (s.mode == "disabled" || s.mode == "shadow" || s.mode == "active")
      && s.minReplicas <= s.maxReplicas && s.interval <= s.ttl
      && (s.fakeReplicas.Some? ==> s.fakeReplicas.value > 0)
    ensures s.mode != "disabled" && s.mode != "shadow" && s.mode != "active" ==> Validate(s) == Some(BadMode)
    ensures Validate(s) == Some(MaxBelowMin) ==> s.maxReplicas < s.minReplicas
    ensures Validate(s) == Some(TtlBelowInterval) ==> s.minReplicas <= s.maxReplicas && s.ttl < s.interval
    ensures Validate(s) == Some(BadFakeReplicas) ==> s.interval <= s.ttl && s.fakeReplicas.Some? && s.fakeReplicas.value <= 0
    ensures Validate(s) == Some(BadMode) ==> s.mode != "disabled" && s.mode != "shadow" && s.mode != "active"
  {
  }

  /** Settings read from the environment: validated, with the numbers checked to be positive. */
  predicate FromEnvironment(s: Settings) {
    && Validate(s).None?
    && s.threshold > 0.0 && s.capacity > 0.0 && s.predictionLength > 0
    && s.minReplicas > 0 && s.maxReplicas > 0 && s.interval > 0 && s.ttl > 0
  }

  // ---------- the CPU series ----------

  /** A sample's value is None when it is not finite. */
  datatype Sample = Sample(time: real, value: Option<real>)

  datatype FetchError = NoData | TooFewPoints(got: nat)

  function Flatten(results: seq<seq<Sample>>): seq<Sample> {
    if results == [] then [] else Flatten(results[..|results| - 1]) + results[|results| - 1]
  }

  /** The sum of the finite samples at one time. */
  function SumAt(samples: seq<Sample>, time: real): real {
    if samples == [] then 0.0
    else
      var last := samples[|samples| - 1];
      SumAt(samples[..|samples| - 1], time) + if last.time == time && last.value.Some? then last.value.value else 0.0
  }

  ghost predicate FiniteAt(samples: seq<Sample>, time: real) {
    exists i :: 0 <= i < |samples| && samples[i].time == time && samples[i].value.Some?
  }

  lemma {:induction false} SumAtConcat(a: seq<Sample>, b: seq<Sample>, time: real)
    ensures SumAt(a + b, time) == SumAt(a, time) + SumAt(b, time)
  {
    if b == [] {
      assert a + b == a;
    } else {
      assert (a + b)[..|a + b| - 1] == a + b[..|b| - 1];
      SumAtConcat(a, b[..|b| - 1], time);
    }
  }

  lemma {:induction false} FlattenConcat(a: seq<seq<Sample>>, b: seq<seq<Sample>>)
    ensures Flatten(a + b) == Flatten(a) + Flatten(b)
  {
    if b == [] {
      assert a + b == a;
    } else {
      assert (a + b)[..|a + b| - 1] == a + b[..|b| - 1];
      FlattenConcat(a, b[..|b| - 1]);
    }
  }

  lemma FiniteAtConcat(a: seq<Sample>, b: seq<Sample>, time: real)
    ensures FiniteAt(a + b, time) <==> FiniteAt(a, time) || FiniteAt(b, time)
  {
    var s := a + b;
    if FiniteAt(s, time) {
      var i :| 0 <= i < |s| && s[i].time == time && s[i].value.Some?;
      assert i >= |a| ==> b[i - |a|] == s[i];
    }
    if FiniteAt(a, time) {
      var i :| 0 <= i < |a| && a[i].time == time && a[i].value.Some?;
      assert s[i] == a[i];
    }
    if FiniteAt(b, time) {
      var i :| 0 <= i < |b| && b[i].time == time && b[i].value.Some?;
      assert s[|a| + i] == b[i];
    }
  }

  lemma Concatenated(a: seq<seq<Sample>>, b: seq<seq<Sample>>, time: real)
    ensures SumAt(Flatten(a + b), time) == SumAt(Flatten(a), time) + SumAt(Flatten(b), time)
    ensures FiniteAt(Flatten(a + b), time) <==> FiniteAt(Flatten(a), time) || FiniteAt(Flatten(b), time)
  {
    FlattenConcat(a, b);
    SumAtConcat(Flatten(a), Flatten(b), time);
    FiniteAtConcat(Flatten(a), Flatten(b), time);
  }

  /** The other series without the first one of these. */
  lemma SetAside(a: seq<seq<Sample>>, b: seq<seq<Sample>>) returns (k: nat)
    requires multiset(a) == multiset(b) && a != []
    ensures k < |b| && b == b[..k] + ([a[0]] + b[k + 1..])
    ensures multiset(a[1..]) == multiset(b[..k] + b[k + 1..])
  {
    assert a[0] in multiset(b);
    k :| 0 <= k < |b| && b[k] == a[0];
    Without(a, 0);
    Without(b, k);
  }

  lemma Without(s: seq<seq<Sample>>, k: nat)
    requires k < |s|
    ensures s == s[..k] + ([s[k]] + s[k + 1..])
    ensures multiset(s[..k] + s[k + 1..]) == multiset(s) - multiset{s[k]}
    ensures k == 0 ==> s[..k] + s[k + 1..] == s[1..]
  {
    assert s == s[..k] + ([s[k]] + s[k + 1..]);
    assert multiset(s) == multiset(s[..k]) + (multiset{s[k]} + multiset(s[k + 1..]));
  }

  /** Neither the times nor the aggregated values depend on the order in which the series came back. */
  lemma {:induction false} OrderIrrelevant(a: seq<seq<Sample>>, b: seq<seq<Sample>>, time: real)
    requires multiset(a) == multiset(b)
    ensures SumAt(Flatten(a), time) == SumAt(Flatten(b), time)
    ensures FiniteAt(Flatten(a), time) <==> FiniteAt(Flatten(b), time)
    decreases |a|
  {
    if a == [] {
      assert |multiset(a)| == |a| && |multiset(b)| == |b|;
    } else {
      var k := SetAside(a, b);
      var c, d := b[..k], b[k + 1..];
      OrderIrrelevant(a[1..], c + d, time);
      MovedFirst(c, a[0], d, time);
      Concatenated([a[0]], a[1..], time);
      assert a == [a[0]] + a[1..];
    }
  }

  lemma MovedFirst(c: seq<seq<Sample>>, x: seq<Sample>, d: seq<seq<Sample>>, time: real)
    ensures SumAt(Flatten(c + ([x] + d)), time) == SumAt(Flatten([x]), time) + SumAt(Flatten(c + d), time)
    ensures FiniteAt(Flatten(c + ([x] + d)), time) <==> FiniteAt(Flatten([x]), time) || FiniteAt(Flatten(c + d), time)
  {
    Concatenated(c, d, time);
    Concatenated([x], d, time);
    Concatenated(c, [x] + d, time);
  }

  /** The dictionary built so far holds exactly the finite times, each with its sum. */
  ghost predicate Aggregates(byTime: map<real, real>, samples: seq<Sample>) {
    && (forall t :: t in byTime <==> FiniteAt(samples, t))
    && (forall t :: t in byTime ==> byTime[t] == SumAt(samples, t))
  }

  lemma {:induction false} NotFiniteSum(samples: seq<Sample>, time: real)
    requires !FiniteAt(samples, time)
    ensures SumAt(samples, time) == 0.0
  {
    if samples != [] {
      var init := samples[..|samples| - 1];
      assert forall i :: 0 <= i < |init| ==> init[i] == samples[i];
      NotFiniteSum(init, time);
    }
  }

  lemma AggregateOne(byTime: map<real, real>, samples: seq<Sample>, s: Sample)
    requires Aggregates(byTime, samples)
    ensures Aggregates(
      if s.value.Some? then byTime[s.time := (if s.time in byTime then byTime[s.time] else 0.0) + s.value.value] else byTime,
      samples + [s])
  {
    assert (samples + [s])[..|samples + [s]| - 1] == samples;
    forall t
      ensures FiniteAt(samples + [s], t) <==> FiniteAt(samples, t) || (s.time == t && s.value.Some?)
    {
      if s.time == t && s.value.Some? { assert (samples + [s])[|samples|].time == t; }
      if FiniteAt(samples, t) {
        var i :| 0 <= i < |samples| && samples[i].time == t && samples[i].value.Some?;
        assert (samples + [s])[i] == samples[i];
      }
    }
    if s.time !in byTime { NotFiniteSum(samples, s.time); }
  }

  ghost predicate Rising(s: seq<real>) {
    forall i, k :: 0 <= i < k < |s| ==> s[i] < s[k]
  }

  function Insert(s: seq<real>, x: real): (r: seq<real>)
    ensures forall t :: t in r <==> t in s || t == x
  {
    if s == [] then [x] else if x < s[0] then [x] + s else [s[0]] + Insert(s[1..], x)
  }

  /** sorted(): the keys of a dictionary are distinct. */
  function Sorted(s: seq<real>): (r: seq<real>)
    ensures forall t :: t in r <==> t in s
  {
    if s == [] then [] else Insert(Sorted(s[1..]), s[0])
  }

  lemma {:induction false} InsertRising(s: seq<real>, x: real)
    requires Rising(s) && x !in s
    ensures Rising(Insert(s, x))
  {
    if s != [] && s[0] < x {
      InsertRising(s[1..], x);
      var rest := Insert(s[1..], x);
      assert forall i :: 0 <= i < |rest| ==> rest[i] in rest;
      assert forall t :: t in s[1..] ==> s[0] < t;
    }
  }

  lemma {:induction false} SortedRising(s: seq<real>)
    requires forall i, k :: 0 <= i < k < |s| ==> s[i] != s[k]
    ensures Rising(Sorted(s))
  {
    if s != [] {
      SortedRising(s[1..]);
      InsertRising(Sorted(s[1..]), s[0]);
    }
  }

  /**
   * The forecast's input: for every time with a finite sample, in rising order and each once, the
   * sum over all returned series; refused when there are none or too few.
   */
  method FetchCpuSeries(results: seq<seq<Sample>>, predictionLength: int)
    returns (r: Result<seq<real>, FetchError>, ghost times: seq<real>)
    ensures results == [] ==> r == Err(NoData)
    ensures forall i, k :: 0 <= i < k < |times| ==> times[i] < times[k]
    ensures results != [] ==> forall t :: t in times <==> FiniteAt(Flatten(results), t)
    ensures results != [] && |times| < predictionLength ==> r == Err(TooFewPoints(|times|))
    ensures results != [] && |times| >= predictionLength ==>
      && r.Ok? && |r.value| == |times|
      && forall i :: 0 <= i < |times| ==> r.value[i] == SumAt(Flatten(results), times[i])
  {
    times := [];
    if results == [] { return Err(NoData), []; }
    var byTime: map<real, real> := map[];
    var keys: seq<real> := [];
    ghost var seen: seq<Sample> := [];
    for i := 0 to |results|
      invariant seen == Flatten(results[..i]) && Aggregates(byTime, seen)
      invariant forall t :: t in keys <==> t in byTime
      invariant forall a, b :: 0 <= a < b < |keys| ==> keys[a] != keys[b]
    {
      var result := results[i];
      ghost var before := seen;
      assert before + result[..0] == before;
      for k := 0 to |result|
        invariant seen == before + result[..k] && Aggregates(byTime, seen)
        invariant forall t :: t in keys <==> t in byTime
        invariant forall a, b :: 0 <= a < b < |keys| ==> keys[a] != keys[b]
      {
        var s := result[k];
        AggregateOne(byTime, seen, s);
        if s.value.Some? {
          if s.time !in byTime { keys := keys + [s.time]; }
          var previous := if s.time in byTime then byTime[s.time] else 0.0;
          byTime := byTime[s.time := previous + s.value.value];
        }
        assert before + result[..k + 1] == (before + result[..k]) + [s];
        seen := seen + [s];
      }
      assert result[..|result|] == result;
      assert results[..i + 1][..i] == results[..i];
    }
    assert results[..|results|] == results;
    SortedRising(keys);
    var ordered := Sorted(keys);
    times := ordered;
    var values: seq<real> := [];
    for i := 0 to |ordered|
      invariant |values| == i
      invariant forall k :: 0 <= k < i ==> values[k] == SumAt(Flatten(results), times[k])
    {
      assert ordered[i] in ordered;
      values := values + [byTime[ordered[i]]];
    }
    if |values| < predictionLength { return Err(TooFewPoints(|values|)), times; }
    r := Ok(values);
  }

  lemma {:induction false} SameKeys(s: seq<real>, t: seq<real>)
    requires Rising(s) && Rising(t) && (forall x :: x in s <==> x in t)
    ensures s == t
    decreases |s|
  {
    if s != [] {
      HeadIsLeast(s, t);
      HeadIsLeast(t, s);
      var s', t' := s[1..], t[1..];
      assert s == [s[0]] + s' && t == [t[0]] + t';
      forall x
        ensures x in s' <==> x in t'
      {
        assert x in s <==> x in t;
        assert (x in s' <==> x in s && x != s[0]) && (x in t' <==> x in t && x != t[0]) by {
          RestOf(s, x);
          RestOf(t, x);
        }
      }
      SameKeys(s', t');
    } else if t != [] {
      HeadIsLeast(t, s);
    }
  }

  lemma RestOf(s: seq<real>, x: real)
    requires Rising(s) && s != []
    ensures x in s[1..] <==> x in s && x != s[0]
  {
    assert s == [s[0]] + s[1..];
    assert forall i :: 0 <= i < |s[1..]| ==> s[0] < s[1..][i];
  }

  lemma HeadIsLeast(t: seq<real>, s: seq<real>)
    requires Rising(s) && t != [] && forall x :: x in t ==> x in s
    ensures s != [] && s[0] <= t[0]
  {
    var head := t[0];
    assert head in t && head in s;
  }

  /** So the forecast's input is the same: equal times, equal values, in the same order. */
  lemma SameInput(a: seq<seq<Sample>>, b: seq<seq<Sample>>, s: seq<real>, t: seq<real>)
    requires multiset(a) == multiset(b) && Rising(s) && Rising(t)
    requires forall x :: x in s <==> FiniteAt(Flatten(a), x)
    requires forall x :: x in t <==> FiniteAt(Flatten(b), x)
    ensures s == t && forall i :: 0 <= i < |s| ==> SumAt(Flatten(a), s[i]) == SumAt(Flatten(b), t[i])
  {
    forall x
      ensures FiniteAt(Flatten(a), x) <==> FiniteAt(Flatten(b), x)
      ensures SumAt(Flatten(a), x) == SumAt(Flatten(b), x)
    {
      OrderIrrelevant(a, b, x);
    }
    SameKeys(s, t);
  }

  // ---------- replicas ----------

  /** How the engine is set up: the service clamps and never preserves, the command line the reverse. */
  datatype Options = Options(preserveBelowThreshold: bool, clampToMax: bool)

  const SERVICE := Options(false, true)

  datatype Forecast = Forecast(timestamp: real, demand: real, scaleOutNeeded: bool, currentReplicas: int, replicas: int)

  datatype ForecastError = Unavailable(message: string) | ZeroCapacity

  function Ceil(x: real): int {
    -((-x).Floor)
  }

  function Replicas(s: Settings, o: Options, demand: real, current: int): int
    requires s.capacity != 0.0
  {
    if o.preserveBelowThreshold && !(demand > s.threshold) then current
    else
      var needed := Ceil(demand / s.capacity);
      var atLeastMin := if needed > s.minReplicas then needed else s.minReplicas;
      if o.clampToMax && atLeastMin > s.maxReplicas then s.maxReplicas else atLeastMin
  }

  function FakeDemand(s: Settings): real
    requires s.fakeReplicas.Some?
  {
    s.fakeReplicas.value as real * s.capacity
  }

  /** `predicted` is what the series and the model yield, unless replicas are faked. */
  function MakeForecast(s: Settings, o: Options, predicted: Result<real, string>, current: Option<int>, at: real)
    : Result<Forecast, ForecastError>
  {
    if s.fakeReplicas.None? && predicted.Err? then Err(Unavailable(predicted.error))
    else if s.capacity == 0.0 then Err(ZeroCapacity)
    else
      var demand := if s.fakeReplicas.Some? then FakeDemand(s) else predicted.value;
      var running := if current.Some? then current.value else s.minReplicas;
      Ok(Forecast(at, demand, demand > s.threshold, running, Replicas(s, o, demand, running)))
  }

  predicate CoversDemand(s: Settings, demand: real, n: int) {
    n as real * s.capacity >= demand
  }

  /** The least replica count in range that covers the demand, or the maximum when none does. */
  ghost predicate IsTarget(s: Settings, demand: real, r: int) {
    && s.minReplicas <= r <= s.maxReplicas
    && (CoversDemand(s, demand, r) || r == s.maxReplicas)
    && (forall n :: s.minReplicas <= n < r ==> !CoversDemand(s, demand, n))
  }

  lemma MulMonotone(a: real, b: real, c: real)
    requires c > 0.0
    ensures a <= b <==> a * c <= b * c
  {
    assert b * c - a * c == (b - a) * c;
    if a <= b { assert (b - a) * c >= 0.0; } else { assert (a - b) * c > 0.0; }
  }

  lemma CoversIff(s: Settings, demand: real, n: int)
    requires s.capacity > 0.0
    ensures CoversDemand(s, demand, n) <==> n >= Ceil(demand / s.capacity)
  {
    var q := demand / s.capacity;
    assert q * s.capacity == demand;
    MulMonotone(q, n as real, s.capacity);
  }

  /** The service's replica count is the one and only target. */
  lemma ReplicasIsTheTarget(s: Settings, demand: real, current: int, r: int)
    requires s.capacity > 0.0 && s.minReplicas <= s.maxReplicas
    ensures r == Replicas(s, SERVICE, demand, current) <==> IsTarget(s, demand, r)
  {
    var x := Replicas(s, SERVICE, demand, current);
    forall n: int
      ensures CoversDemand(s, demand, n) <==> n >= Ceil(demand / s.capacity)
    {
      CoversIff(s, demand, n);
    }
    assert IsTarget(s, demand, x);
    if IsTarget(s, demand, r) {
      assert r < x ==> !CoversDemand(s, demand, r);
      assert x < r ==> !CoversDemand(s, demand, x);
    }
  }

  /**
   * Set up otherwise: below the threshold a preserving engine keeps the current count; without the
   * clamp the count is the least one, from the minimum on, that covers the demand.
   */
  lemma ReplicasOtherwise(s: Settings, o: Options, demand: real, current: int)
    requires s.capacity > 0.0
    ensures o.preserveBelowThreshold && demand <= s.threshold ==> Replicas(s, o, demand, current) == current
    ensures (!o.preserveBelowThreshold || demand > s.threshold) && !o.clampToMax ==>
      var r := Replicas(s, o, demand, current);
      r >= s.minReplicas && CoversDemand(s, demand, r) && forall n :: s.minReplicas <= n < r ==> !CoversDemand(s, demand, n)
  {
    forall n: int
      ensures CoversDemand(s, demand, n) <==> n >= Ceil(demand / s.capacity)
    {
      CoversIff(s, demand, n);
    }
  }

  lemma FakeIsTarget(s: Settings, r: int)
    requires FromEnvironment(s) && s.fakeReplicas.Some? && r == Clamped(s, s.fakeReplicas.value)
    ensures IsTarget(s, FakeDemand(s), r)
  {
    forall n: int
      ensures CoversDemand(s, FakeDemand(s), n) <==> n >= s.fakeReplicas.value
    {
      MulMonotone(s.fakeReplicas.value as real, n as real, s.capacity);
    }
  }

  function Clamped(s: Settings, n: int): int {
    if n < s.minReplicas then s.minReplicas else if n > s.maxReplicas then s.maxReplicas else n
  }

  /** Faked replicas come out as configured, cut to the range, whatever the model would have said. */
  lemma FakeReplicasAreKept(s: Settings, predicted: Result<real, string>, at: real)
    requires FromEnvironment(s) && s.fakeReplicas.Some?
    ensures var f := MakeForecast(s, SERVICE, predicted, None, at);
      f.Ok? && f.value.replicas == Clamped(s, s.fakeReplicas.value)
  {
    var r := Clamped(s, s.fakeReplicas.value);
    FakeIsTarget(s, r);
    ReplicasIsTheTarget(s, FakeDemand(s), s.minReplicas, r);
  }
}
