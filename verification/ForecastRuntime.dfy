/**
 * The forecast service's state per target and the gauges it exports. KEDA scales on the scaling
 * gauge, which is read right after a refresh of every target.
 */
module ForecastRuntime {
  import opened Wrappers
  import opened ForecastEngine

  type Key = (string, string)

  datatype Target = Target(latest: Option<Forecast>, valid: bool, lastError: Option<string>)

  datatype Gauges = Gauges(predictedCpu: real, predictedReplicas: int, scaling: int, timestamp: real, valid: int, errors: nat)

  datatype State = State(target: Target, gauges: Gauges)

  /** `predicted` is what fetching and the model yield during this run, `at` when it started. */
  datatype Event =
    | RunOnce(predicted: Result<real, string>, at: real)
    | Refresh(now: real)

  const EXPIRED := "forecast expired"

  function Inactive(s: Settings, errors: nat): Gauges {
    Gauges(0.0, s.minReplicas, 0, 0.0, 0, errors)
  }

  function Begin(s: Settings): State {
    State(Target(None, false, None), Inactive(s, 0))
  }

  function Message(e: ForecastError): string {
    match e
    case Unavailable(m) => m
    case ZeroCapacity => "division by zero"
  }

  function Publish(s: Settings, st: State, f: Forecast): State {
    State(Target(Some(f), true, None),
          st.gauges.(predictedCpu := f.demand, predictedReplicas := f.replicas,
                     scaling := if s.mode == "active" then f.replicas else 0,
                     timestamp := f.timestamp, valid := 1))
  }

  function Failed(st: State, message: string): State {
    State(st.target.(valid := false, lastError := Some(message)),
          st.gauges.(scaling := 0, valid := 0, errors := st.gauges.errors + 1))
  }

  function RunFor(s: Settings, st: State, predicted: Result<real, string>, at: real): State {
    if s.mode == "disabled" then State(st.target.(valid := false, lastError := None), Inactive(s, st.gauges.errors))
    else
      match MakeForecast(s, SERVICE, predicted, None, at)
      case Ok(f) => Publish(s, st, f)
      case Err(e) => Failed(st, Message(e))
  }

  predicate IsFresh(s: Settings, t: Target, now: real) {
    t.latest.Some? && now - t.latest.value.timestamp <= s.ttl as real
  }

  function RefreshFor(s: Settings, st: State, now: real): State {
    var t := st.target;
    var t' :=
      if t.latest.None? then t.(valid := false)
      else if now - t.latest.value.timestamp > s.ttl as real then t.(valid := false, lastError := Some(EXPIRED))
      else t;
    State(t', if t'.valid then st.gauges else st.gauges.(scaling := 0, valid := 0))
  }

  function Step(s: Settings, st: State, e: Event): State {
    match e
    case RunOnce(predicted, at) => RunFor(s, st, predicted, at)
    case Refresh(now) => RefreshFor(s, st, now)
  }

  function After(s: Settings, es: seq<Event>): State {
    if es == [] then Begin(s) else Step(s, After(s, es[..|es| - 1]), es[|es| - 1])
  }

  /** Gauges and state agree; the scaling gauge is the forecast's count or nothing. */
  ghost predicate Inv(s: Settings, st: State) {
    && st.gauges.valid == (if st.target.valid then 1 else 0)
    && (st.target.valid ==> st.target.latest.Some? && s.mode != "disabled")
    && st.gauges.scaling == (if st.target.valid && s.mode == "active" then st.target.latest.value.replicas else 0)
    && (s.capacity > 0.0 && s.minReplicas <= s.maxReplicas && st.target.latest.Some? ==>
          IsTarget(s, st.target.latest.value.demand, st.target.latest.value.replicas))
  }

  lemma StepInv(s: Settings, st: State, e: Event)
    requires Inv(s, st)
    ensures Inv(s, Step(s, st, e))
  {
    if e.RunOnce? && s.capacity > 0.0 && s.minReplicas <= s.maxReplicas {
      match MakeForecast(s, SERVICE, e.predicted, None, e.at)
      case Ok(f) => ReplicasIsTheTarget(s, f.demand, s.minReplicas, f.replicas);
      case Err(_) =>
    }
  }

  lemma {:induction false} AlwaysInv(s: Settings, es: seq<Event>)
    ensures Inv(s, After(s, es))
  {
    if es != [] {
      AlwaysInv(s, es[..|es| - 1]);
      StepInv(s, After(s, es[..|es| - 1]), es[|es| - 1]);
    }
  }

  /**
   * After any runs, failures and refreshes of a target: the valid gauge tells the state's
   * validity, and a nonzero scaling signal means active mode, a valid state and the replica
   * count of the latest forecast.
   */
  lemma SignalSafety(s: Settings, es: seq<Event>)
    ensures var st := After(s, es);
      && (st.gauges.valid == 1 <==> st.target.valid) && (st.gauges.valid == 0 <==> !st.target.valid)
      && (st.gauges.scaling != 0 ==>
            s.mode == "active" && st.target.valid && st.target.latest.Some?
            && st.gauges.scaling == st.target.latest.value.replicas)
      && (FromEnvironment(s) ==>
            (st.gauges.scaling != 0 <==> s.mode == "active" && st.target.valid))
  {
    AlwaysInv(s, es);
  }

  /**
   * What KEDA reads: right after a refresh a nonzero signal is backed by a forecast within its
   * TTL, lies in [min, max] and is the least count covering the forecast demand unless capped.
   */
  lemma ScrapedSignal(s: Settings, es: seq<Event>, now: real)
    requires FromEnvironment(s)
    ensures var st := After(s, es + [Refresh(now)]);
      st.gauges.scaling != 0 ==>
        && st.target.latest.Some? && now - st.target.latest.value.timestamp <= s.ttl as real
        && s.minReplicas <= st.gauges.scaling <= s.maxReplicas
        && IsTarget(s, st.target.latest.value.demand, st.gauges.scaling)
  {
    var all := es + [Refresh(now)];
    assert all[..|all| - 1] == es;
    AlwaysInv(s, es);
    AlwaysInv(s, all);
  }

  lemma RefreshedSignal(s: Settings, st: State, now: real)
    requires Inv(s, st)
    ensures var t := RefreshFor(s, st, now); t.gauges.scaling != 0 ==> s.mode == "active" && IsFresh(s, t.target, now)
  {
  }

  /** A forecast of this demand is published. */
  ghost predicate Published(s: Settings, after: State, demand: real, at: real) {
    && after.target.valid && after.target.lastError.None? && after.target.latest.Some?
    && var f := after.target.latest.value; var g := after.gauges;
       && f.demand == demand && f.timestamp == at && (f.scaleOutNeeded <==> demand > s.threshold)
       && f.currentReplicas == s.minReplicas && IsTarget(s, demand, f.replicas)
       && g.predictedCpu == demand && g.predictedReplicas == f.replicas && g.timestamp == at && g.valid == 1
       && g.scaling == if s.mode == "active" then f.replicas else 0
  }

  /** What one run of a target with sound settings must report. */
  ghost predicate Reports(s: Settings, before: State, after: State, predicted: Result<real, string>, at: real) {
    if s.mode == "disabled" then
      && !after.target.valid && after.target.lastError.None? && after.target.latest == before.target.latest
      && after.gauges == Gauges(0.0, s.minReplicas, 0, 0.0, 0, before.gauges.errors)
    else if s.fakeReplicas.Some? then
      Published(s, after, s.fakeReplicas.value as real * s.capacity, at) && after.gauges.errors == before.gauges.errors
    else if predicted.Ok? then
      Published(s, after, predicted.value, at) && after.gauges.errors == before.gauges.errors
    else
      && after.target == Target(before.target.latest, false, Some(predicted.error))
      && after.gauges == before.gauges.(scaling := 0, valid := 0, errors := before.gauges.errors + 1)
  }

  lemma RunReports(s: Settings, st: State, predicted: Result<real, string>, at: real)
    requires s.capacity > 0.0 && s.minReplicas <= s.maxReplicas
    ensures Reports(s, st, RunFor(s, st, predicted, at), predicted, at)
  {
    if s.fakeReplicas.Some? || predicted.Ok? {
      var demand := if s.fakeReplicas.Some? then s.fakeReplicas.value as real * s.capacity else predicted.value;
      ReplicasIsTheTarget(s, demand, s.minReplicas, Replicas(s, SERVICE, demand, s.minReplicas));
    }
  }

  /**
   * After any history a run of an active target whose prediction succeeds makes it valid, and the
   * signal is the least count in range that covers the prediction, or the maximum when none does.
   */
  lemma PredictionSignalled(s: Settings, es: seq<Event>, x: real, at: real)
    requires FromEnvironment(s) && s.mode == "active" && s.fakeReplicas.None?
    ensures var st := After(s, es + [RunOnce(Ok(x), at)]);
      && st.target.valid && st.gauges.valid == 1 && st.target.latest.Some?
      && st.target.latest.value.demand == x && st.target.latest.value.timestamp == at
      && st.gauges.predictedCpu == x && IsTarget(s, x, st.gauges.scaling)
  {
    var all := es + [RunOnce(Ok(x), at)];
    assert all[..|all| - 1] == es;
    RunReports(s, After(s, es), Ok(x), at);
  }

  /** A refresh keeps exactly the valid forecasts whose age is within the TTL, and takes the signal of all others. */
  lemma RefreshExact(s: Settings, es: seq<Event>, now: real)
    ensures var st := After(s, es); var t := After(s, es + [Refresh(now)]);
      && (t.target.valid <==>
            st.target.valid && st.target.latest.Some? && now - st.target.latest.value.timestamp <= s.ttl as real)
      && t.target.latest == st.target.latest
      && (t.target.valid ==> t == st)
      && (!t.target.valid ==> t.gauges == st.gauges.(scaling := 0, valid := 0))
      && t.target.lastError ==
           (if st.target.latest.Some? && now - st.target.latest.value.timestamp > s.ttl as real
            then Some("forecast expired") else st.target.lastError)
  {
    var all := es + [Refresh(now)];
    assert all[..|all| - 1] == es;
    AlwaysInv(s, es);
  }

  /** An expired or failed target stays invalid until a run succeeds. */
  lemma {:induction false} InvalidUntilSuccess(s: Settings, es: seq<Event>, fs: seq<Event>)
    requires !After(s, es).target.valid
    requires forall i :: 0 <= i < |fs| && fs[i].RunOnce? ==>
      s.mode == "disabled" || MakeForecast(s, SERVICE, fs[i].predicted, None, fs[i].at).Err?
    ensures var st := After(s, es + fs); !st.target.valid && st.gauges.valid == 0 && st.gauges.scaling == 0
    decreases |fs|
  {
    AlwaysInv(s, es + fs);
    if fs == [] {
      assert es + fs == es;
    } else {
      assert (es + fs)[..|es + fs| - 1] == es + fs[..|fs| - 1];
      InvalidUntilSuccess(s, es, fs[..|fs| - 1]);
    }
  }

  // ---------- the service's own form ----------

  datatype ResponseError = UnknownTarget | NotAvailable(detail: string)

  /** No earlier target has the same key. */
  predicate IsFirst(targets: seq<(Key, Settings)>, i: nat)
    requires i < |targets|
  {
    forall k :: 0 <= k < i ==> targets[k].0 != targets[i].0
  }

  class Runtime {
    const settings: map<Key, Settings>
    const order: seq<Key>
    var states: map<Key, State>

    ghost predicate Valid()
      reads this
    {
      && states.Keys == settings.Keys
      && (forall i :: 0 <= i < |order| ==> order[i] in settings)
      && (forall i, k :: 0 <= i < k < |order| ==> order[i] != order[k])
      && (forall key :: key in settings ==> key in order)
      && (forall key :: key in states ==> Inv(settings[key], states[key]))
    }

    /** A target named twice keeps its first settings. */
    constructor (targets: seq<(Key, Settings)>)
      ensures Valid()
      ensures forall key :: key in settings <==> exists i :: 0 <= i < |targets| && targets[i].0 == key
      ensures forall i :: 0 <= i < |targets| && IsFirst(targets, i) ==> settings[targets[i].0] == targets[i].1
      ensures forall key :: key in settings ==> states[key] == Begin(settings[key])
    {
      var byKey: map<Key, Settings> := map[];
      var keys: seq<Key> := [];
      var initial: map<Key, State> := map[];
      for i := 0 to |targets|
        invariant forall key :: key in byKey <==> exists k :: 0 <= k < i && targets[k].0 == key
        invariant forall k :: 0 <= k < i && IsFirst(targets, k) ==> targets[k].0 in byKey && byKey[targets[k].0] == targets[k].1
        invariant forall key :: key in keys <==> key in byKey
        invariant forall a, b :: 0 <= a < b < |keys| ==> keys[a] != keys[b]
        invariant initial.Keys == byKey.Keys
        invariant forall key :: key in byKey ==> initial[key] == Begin(byKey[key])
      {
        var (key, s) := targets[i];
        if key !in byKey {
          byKey := byKey[key := s];
          keys := keys + [key];
          initial := initial[key := Begin(s)];
        }
      }
      settings := byKey;
      order := keys;
      states := initial;
    }

    method RunOnceFor(key: Key, predicted: Result<real, string>, at: real)
      requires Valid() && key in settings
      modifies this`states
      ensures Valid() && states == old(states)[key := RunFor(settings[key], old(states)[key], predicted, at)]
      ensures settings[key].capacity > 0.0 && settings[key].minReplicas <= settings[key].maxReplicas ==>
        Reports(settings[key], old(states)[key], states[key], predicted, at)
    {
      var s := settings[key];
      var st := states[key];
      StepInv(s, st, RunOnce(predicted, at));
      if s.capacity > 0.0 && s.minReplicas <= s.maxReplicas { RunReports(s, st, predicted, at); }
      if s.mode == "disabled" {
        states := states[key := State(st.target.(valid := false, lastError := None), Inactive(s, st.gauges.errors))];
        return;
      }
      match MakeForecast(s, SERVICE, predicted, None, at) {
        case Err(e) => states := states[key := Failed(st, Message(e))];
        case Ok(f) => states := states[key := Publish(s, st, f)];
      }
    }

    /** One round over all targets; each gets exactly its own run. */
    method RunAll(predicted: map<Key, Result<real, string>>, at: real)
      requires Valid() && settings.Keys <= predicted.Keys
      modifies this`states
      ensures Valid()
      ensures forall key :: key in settings ==> states[key] == RunFor(settings[key], old(states)[key], predicted[key], at)
    {
      for i := 0 to |order|
        invariant Valid()
        invariant forall k :: 0 <= k < i ==>
          states[order[k]] == RunFor(settings[order[k]], old(states)[order[k]], predicted[order[k]], at)
        invariant forall k :: i <= k < |order| ==> states[order[k]] == old(states)[order[k]]
      {
        RunOnceFor(order[i], predicted[order[i]], at);
      }
    }

    method RefreshExpiryFor(key: Key, now: real) returns (valid: bool)
      requires Valid() && key in settings
      modifies this`states
      ensures Valid() && states == old(states)[key := RefreshFor(settings[key], old(states)[key], now)]
      ensures valid == states[key].target.valid
      ensures valid <==>
        && old(states)[key].target.valid && old(states)[key].target.latest.Some?
        && now - old(states)[key].target.latest.value.timestamp <= settings[key].ttl as real
    {
      var s := settings[key];
      var st := states[key];
      StepInv(s, st, Refresh(now));
      var t := st.target;
      var g := st.gauges;
      if t.latest.None? {
        t := t.(valid := false);
      } else {
        var age := now - t.latest.value.timestamp;
        if age > s.ttl as real {
          t := t.(valid := false, lastError := Some(EXPIRED));
        }
      }
      if !t.valid { g := g.(scaling := 0, valid := 0); }
      states := states[key := State(t, g)];
      valid := t.valid;
    }

    /** What the metrics endpoint does before it renders: no stale signal is left on any target. */
    method RefreshAllExpiry(now: real)
      requires Valid()
      modifies this`states
      ensures Valid()
      ensures forall key :: key in settings ==> states[key] == RefreshFor(settings[key], old(states)[key], now)
      ensures forall key :: key in settings && states[key].gauges.scaling != 0 ==>
        settings[key].mode == "active" && IsFresh(settings[key], states[key].target, now)
    {
      for i := 0 to |order|
        invariant Valid()
        invariant forall k :: 0 <= k < i ==>
          states[order[k]] == RefreshFor(settings[order[k]], old(states)[order[k]], now)
        invariant forall k :: i <= k < |order| ==> states[order[k]] == old(states)[order[k]]
      {
        var valid := RefreshExpiryFor(order[i], now);
      }
      forall key | key in settings && states[key].gauges.scaling != 0
        ensures settings[key].mode == "active" && IsFresh(settings[key], states[key].target, now)
      {
        RefreshedSignal(settings[key], old(states)[key], now);
      }
    }

    method PredictionResponse(key: Key, now: real) returns (r: Result<Forecast, ResponseError>)
      requires Valid()
      modifies this`states
      ensures Valid()
      ensures key !in settings ==> r == Err(UnknownTarget) && states == old(states)
      ensures key in settings ==> states == old(states)[key := RefreshFor(settings[key], old(states)[key], now)]
      ensures r.Ok? <==> key in settings && old(states)[key].target.valid && IsFresh(settings[key], old(states)[key].target, now)
      ensures r.Ok? ==> Some(r.value) == states[key].target.latest
      ensures key in settings && r.Err? ==>
        var why := states[key].target.lastError;
        r == Err(NotAvailable(if why.Some? then why.value else "forecast is not available"))
    {
      if key !in settings { return Err(UnknownTarget); }
      var valid := RefreshExpiryFor(key, now);
      var t := states[key].target;
      if !t.valid || t.latest.None? {
        return Err(NotAvailable(if t.lastError.Some? then t.lastError.value else "forecast is not available"));
      }
      r := Ok(t.latest.value);
    }
  }
}
