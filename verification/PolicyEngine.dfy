/**
 * The policy rules that turn a recommendation into an approved request. Each rule may overwrite
 * the values the earlier ones left; the questions are about all combinations of rules.
 */
module PolicyEngine {
  import opened Wrappers
  import opened ResourceQuantity

  const CPU_UNIT_COST := 25.0
  const MEM_UNIT_COST := 4.0

  datatype Metrics = Metrics(oomKilled: bool, restarts: int, avgCpuPct: Option<real>)

  /** Parsed numbers; `forecastPct` is None when there is no forecast or it names no CPU value. */
  datatype Input = Input(
    currCpu: real, currMem: real, krrCpu: real, krrMem: real,
    metrics: Option<Metrics>, forecastPct: Option<real>,
    cpuInsufficient: bool, memInsufficient: bool,
    cpuLimit: Option<real>, memLimit: Option<real>)

  datatype Status = Pass | Warn | Fail

  datatype Risk = Safe | Medium | High

  datatype Verdict = Verdict(
    risk: Risk, failed: bool, score: int, rules: seq<Status>,
    uncappedCpu: real, uncappedMem: real, finalCpu: real, finalMem: real,
    costChangePct: real, savings: real, currentCost: real, finalCost: real)

  // ---------- the rules as conditions ----------

  predicate CpuCutTooDeep(i: Input) {
    i.currCpu > 0.0 && (i.currCpu - i.krrCpu) / i.currCpu >= 0.5
  }

  predicate MemCutTooDeep(i: Input) {
    i.currMem > 0.0 && (i.currMem - i.krrMem) / i.currMem >= 0.6
  }

  predicate OomKilled(i: Input) {
    i.metrics.Some? && i.metrics.value.oomKilled
  }

  predicate Restarting(i: Input) {
    i.metrics.Some? && i.metrics.value.restarts >= 10
  }

  predicate LoadComing(i: Input) {
    i.forecastPct.Some? && i.forecastPct.value >= 80.0
  }

  predicate Idle(i: Input) {
    && i.metrics.Some? && i.metrics.value.avgCpuPct.Some? && i.metrics.value.avgCpuPct.value < 20.0
    && !i.metrics.value.oomKilled
  }

  predicate Insufficient(i: Input) {
    i.cpuInsufficient || i.memInsufficient
  }

  function Points(on: bool, points: int): int {
    if on then points else 0
  }

  /** The risk score: the idle discount never takes it below zero. */
  function Score(i: Input): int {
    var risk := Points(CpuCutTooDeep(i), 25) + Points(MemCutTooDeep(i), 20)
      + Points(OomKilled(i), 60) + Points(i.metrics.None?, 30) + Points(Restarting(i), 50)
      + Points(LoadComing(i), 45) + Points(i.forecastPct.None?, 30);
    (if Idle(i) then if risk > 15 then risk - 15 else 0 else risk) + Points(Insufficient(i), 10)
  }

  predicate Failed(i: Input) {
    Score(i) >= 70
  }

  /** The unhealthy signals that veto any change of both resources. */
  predicate Vetoed(i: Input) {
    OomKilled(i) || Restarting(i)
  }

  function Max(a: real, b: real): real {
    if a >= b then a else b
  }

  function Min(a: real, b: real): real {
    if a <= b then a else b
  }

  /** CPU before the limit cap, from the last rule that has a say to the first. */
  function UncappedCpu(i: Input): real {
    if Failed(i) || LoadComing(i) then i.currCpu
    else
      var base := if Vetoed(i) then i.currCpu else if CpuCutTooDeep(i) then i.currCpu * 0.7 else i.krrCpu;
      if i.forecastPct.None? then Max(base, i.currCpu * 0.85) else base
  }

  function UncappedMem(i: Input): real {
    if Failed(i) || Vetoed(i) then i.currMem else if MemCutTooDeep(i) then i.currMem * 0.6 else i.krrMem
  }

  /** A missing or nonpositive limit caps nothing. */
  function Capped(x: real, limit: Option<real>): real {
    if limit.Some? && limit.value > 0.0 then Min(x, limit.value) else x
  }

  function Cost(cpu: real, mem: real): real {
    cpu * CPU_UNIT_COST + mem / 1024.0 * MEM_UNIT_COST
  }

  /** Cost saved, signed; nothing is claimed for a failed evaluation or a free workload. */
  function Savings(i: Input): real {
    var current := Cost(i.currCpu, i.currMem);
    if Failed(i) || current <= 0.0 then 0.0
    else current - Cost(Capped(UncappedCpu(i), i.cpuLimit), Capped(UncappedMem(i), i.memLimit))
  }

  /** Percent of the current cost saved, before rounding. */
  function CostChange(i: Input): real {
    if Savings(i) == 0.0 then 0.0 else Savings(i) / Cost(i.currCpu, i.currMem) * 100.0
  }

  function RiskOf(score: int): Risk {
    if score >= 70 then High else if score >= 35 then Medium else Safe
  }

  function ReductionStatuses(i: Input): seq<Status> {
    [if CpuCutTooDeep(i) then Warn else Pass, if MemCutTooDeep(i) then Warn else Pass]
  }

  function HealthStatuses(i: Input): seq<Status> {
    [ if OomKilled(i) then Fail else if i.metrics.None? then Warn else Pass,
      if Restarting(i) then Fail else if i.metrics.None? then Warn else Pass ]
  }

  function LoadStatuses(i: Input): seq<Status> {
    [if LoadComing(i) || i.forecastPct.None? then Warn else Pass, Pass, if Insufficient(i) then Warn else Pass]
  }

  function LimitStatus(i: Input): Status {
    if Capped(UncappedCpu(i), i.cpuLimit) < UncappedCpu(i) || Capped(UncappedMem(i), i.memLimit) < UncappedMem(i) then Warn
    else if i.cpuLimit.Some? || i.memLimit.Some? then Pass
    else Warn
  }

  /** The status each of the eight rules reports, in order. */
  function RuleStatuses(i: Input): seq<Status> {
    ReductionStatuses(i) + HealthStatuses(i) + LoadStatuses(i) + [LimitStatus(i)]
  }

  /** round(x, places). */
  function RoundTo(x: real, scale: real): real
    requires scale > 0.0
  {
    RoundHalfEven(x * scale) as real / scale
  }

  /** What the rules so far have left: approved values, score and statuses. */
  datatype Draft = Draft(cpu: real, mem: real, score: int, rules: seq<Status>)

  /** Rules 1 and 2 soften a cut that is too deep. */
  method ReductionRules(i: Input) returns (d: Draft)
    ensures d.cpu == (if CpuCutTooDeep(i) then i.currCpu * 0.7 else i.krrCpu)
    ensures d.mem == (if MemCutTooDeep(i) then i.currMem * 0.6 else i.krrMem)
    ensures d.score == Points(CpuCutTooDeep(i), 25) + Points(MemCutTooDeep(i), 20)
    ensures d.rules == ReductionStatuses(i)
  {
    var finalCpu, finalMem, score := i.krrCpu, i.krrMem, 0;
    var rules: seq<Status> := [];
    var cpuReduction := if i.currCpu > 0.0 then (i.currCpu - i.krrCpu) / i.currCpu else 0.0;
    if cpuReduction >= 0.5 {
      score := score + 25;
      finalCpu := i.currCpu * 0.7;
      rules := rules + [Warn];
    } else {
      rules := rules + [Pass];
    }
    var memReduction := if i.currMem > 0.0 then (i.currMem - i.krrMem) / i.currMem else 0.0;
    if memReduction >= 0.6 {
      score := score + 20;
      finalMem := i.currMem * 0.6;
      rules := rules + [Warn];
    } else {
      rules := rules + [Pass];
    }
    d := Draft(finalCpu, finalMem, score, rules);
  }

  /** Rules 3 and 4 hold everything at the current request when the workload is unhealthy. */
  method HealthRules(i: Input, d: Draft) returns (r: Draft)
    ensures r.cpu == (if Vetoed(i) then i.currCpu else d.cpu)
    ensures r.mem == (if Vetoed(i) then i.currMem else d.mem)
    ensures r.score == d.score + Points(OomKilled(i), 60) + Points(i.metrics.None?, 30) + Points(Restarting(i), 50)
    ensures r.rules == d.rules + HealthStatuses(i)
  {
    r := d;
    if i.metrics.Some? && i.metrics.value.oomKilled {
      r := Draft(i.currCpu, i.currMem, r.score + 60, r.rules + [Fail]);
    } else if i.metrics.None? {
      r := r.(score := r.score + 15, rules := r.rules + [Warn]);
    } else {
      r := r.(rules := r.rules + [Pass]);
    }
    if i.metrics.Some? && i.metrics.value.restarts >= 10 {
      r := Draft(i.currCpu, i.currMem, r.score + 50, r.rules + [Fail]);
    } else if i.metrics.None? {
      r := r.(score := r.score + 15, rules := r.rules + [Warn]);
    } else {
      r := r.(rules := r.rules + [Pass]);
    }
  }

  /** Rules 5 to 7 look at the predicted load, the average load and the history. */
  method LoadRules(i: Input, d: Draft) returns (r: Draft)
    ensures r.cpu == (if LoadComing(i) then i.currCpu else if i.forecastPct.None? then Max(d.cpu, i.currCpu * 0.85) else d.cpu)
    ensures r.mem == d.mem
    ensures var risk := d.score + Points(LoadComing(i), 45) + Points(i.forecastPct.None?, 30);
      r.score == (if Idle(i) then if risk > 15 then risk - 15 else 0 else risk) + Points(Insufficient(i), 10)
    ensures r.rules == d.rules + LoadStatuses(i)
  {
    r := d;
    if i.forecastPct.Some? {
      if i.forecastPct.value >= 80.0 {
        r := r.(cpu := i.currCpu, score := r.score + 45, rules := r.rules + [Warn]);
      } else {
        r := r.(rules := r.rules + [Pass]);
      }
    } else {
      r := r.(cpu := Max(r.cpu, i.currCpu * 0.85), score := r.score + 30, rules := r.rules + [Warn]);
    }
    if Idle(i) { r := r.(score := if r.score > 15 then r.score - 15 else 0); }
    r := r.(rules := r.rules + [Pass]);
    if i.cpuInsufficient || i.memInsufficient {
      r := r.(score := r.score + 10, rules := r.rules + [Warn]);
    } else {
      r := r.(rules := r.rules + [Pass]);
    }
  }

  /** Rule 8 cuts the approved values to the container's limits. */
  method CapToLimits(i: Input, d: Draft) returns (r: Draft)
    ensures r.cpu == Capped(d.cpu, i.cpuLimit) && r.mem == Capped(d.mem, i.memLimit) && r.score == d.score
    ensures d.cpu == UncappedCpu(i) && d.mem == UncappedMem(i) ==> r.rules == d.rules + [LimitStatus(i)]
  {
    r := d;
    var capped := false;
    if i.cpuLimit.Some? && i.cpuLimit.value > 0.0 && r.cpu > i.cpuLimit.value {
      r := r.(cpu := i.cpuLimit.value);
      capped := true;
    }
    if i.memLimit.Some? && i.memLimit.value > 0.0 && r.mem > i.memLimit.value {
      r := r.(mem := i.memLimit.value);
      capped := true;
    }
    r := r.(rules := r.rules + [if capped then Warn else if i.cpuLimit.Some? || i.memLimit.Some? then Pass else Warn]);
  }

  /** Signed: a rise is not cut to zero. */
  method CompareCosts(i: Input, failed: bool, final: Draft) returns (change: real, savings: real)
    requires failed == Failed(i)
    requires final.cpu == Capped(UncappedCpu(i), i.cpuLimit) && final.mem == Capped(UncappedMem(i), i.memLimit)
    ensures change == CostChange(i) && savings == Savings(i)
  {
    var currentCost := Cost(i.currCpu, i.currMem);
    var finalCost := Cost(final.cpu, final.mem);
    change, savings := 0.0, 0.0;
    if !failed && currentCost > 0.0 {
      change := (currentCost - finalCost) / currentCost * 100.0;
      savings := currentCost - finalCost;
    }
  }

  /** What the conditions say the outcome is. */
  predicate IsVerdict(i: Input, v: Verdict) {
    && v.score == Score(i) && v.failed == Failed(i) && v.risk == RiskOf(Score(i))
    && v.rules == RuleStatuses(i)
    && v.uncappedCpu == UncappedCpu(i) && v.uncappedMem == UncappedMem(i)
    && v.finalCpu == Capped(UncappedCpu(i), i.cpuLimit) && v.finalMem == Capped(UncappedMem(i), i.memLimit)
    && v.costChangePct == RoundTo(CostChange(i), 10.0)
    && v.savings == RoundTo(Savings(i), 100.0)
    && v.currentCost == RoundTo(Cost(i.currCpu, i.currMem), 100.0)
    && v.finalCost == RoundTo(Cost(v.finalCpu, v.finalMem), 100.0)
  }

  /** A positive limit is an upper bound, and the value is the uncapped one or the limit; any other limit bounds nothing. */
  predicate CapsTo(limit: Option<real>, uncapped: real, final: real) {
    && (limit.Some? && limit.value > 0.0 ==>
          final <= limit.value && final <= uncapped && (final == limit.value || final == uncapped))
    && (limit.None? || limit.value <= 0.0 ==> final == uncapped)
  }

  /** The limits hold, and the eighth rule warns when one bites or none is known. */
  predicate WithinLimits(i: Input, v: Verdict) {
    && CapsTo(i.cpuLimit, v.uncappedCpu, v.finalCpu) && CapsTo(i.memLimit, v.uncappedMem, v.finalMem)
    && |v.rules| == 8
    && (v.finalCpu < v.uncappedCpu || v.finalMem < v.uncappedMem ==> v.rules[7] == Warn)
    && (v.finalCpu == v.uncappedCpu && v.finalMem == v.uncappedMem ==>
          v.rules[7] == if i.cpuLimit.Some? || i.memLimit.Some? then Pass else Warn)
  }

  /** CPU by the last rule that has a say. */
  predicate CpuApproved(i: Input, failed: bool, x: real) {
    && (failed || (i.forecastPct.Some? && i.forecastPct.value >= 80.0) ==> x == i.currCpu)
    && (!failed && (i.forecastPct.None? || i.forecastPct.value < 80.0) ==>
          && (i.metrics.Some? && (i.metrics.value.oomKilled || i.metrics.value.restarts >= 10) && i.currCpu >= 0.0 ==>
                x == i.currCpu)
          && ((i.metrics.None? || (!i.metrics.value.oomKilled && i.metrics.value.restarts < 10)) ==>
                var wanted := if i.currCpu > 0.0 && i.krrCpu <= 0.5 * i.currCpu then 0.7 * i.currCpu else i.krrCpu;
                && (i.forecastPct.Some? ==> x == wanted)
                && (i.forecastPct.None? ==>
                      x >= wanted && x >= 0.85 * i.currCpu && (x == wanted || x == 0.85 * i.currCpu))))
  }

  predicate MemApproved(i: Input, failed: bool, x: real) {
    && (failed || (i.metrics.Some? && (i.metrics.value.oomKilled || i.metrics.value.restarts >= 10)) ==> x == i.currMem)
    && (!failed && (i.metrics.None? || (!i.metrics.value.oomKilled && i.metrics.value.restarts < 10)) ==>
          x == if i.currMem > 0.0 && i.krrMem <= 0.4 * i.currMem then 0.6 * i.currMem else i.krrMem)
  }

  /** The points of the rules, added up in plain numbers. */
  predicate Scored(i: Input, score: int) {
    var known := i.metrics.Some?;
    var cuts := (if i.currCpu > 0.0 && i.krrCpu <= 0.5 * i.currCpu then 25 else 0)
              + (if i.currMem > 0.0 && i.krrMem <= 0.4 * i.currMem then 20 else 0);
    var health := if known
      then (if i.metrics.value.oomKilled then 60 else 0) + (if i.metrics.value.restarts >= 10 then 50 else 0)
      else 30;
    var load := if i.forecastPct.None? then 30 else if i.forecastPct.value >= 80.0 then 45 else 0;
    var sum := cuts + health + load;
    var calm := known && i.metrics.value.avgCpuPct.Some? && i.metrics.value.avgCpuPct.value < 20.0
      && !i.metrics.value.oomKilled;
    var data := if i.cpuInsufficient || i.memInsufficient then 10 else 0;
    score == (if !calm then sum else if sum <= 15 then 0 else sum - 15) + data
  }

  /** The status of each of the first seven rules. */
  predicate Statuses(i: Input, rules: seq<Status>) {
    && |rules| == 8
    && rules[0] == (if i.currCpu > 0.0 && i.krrCpu <= 0.5 * i.currCpu then Warn else Pass)
    && rules[1] == (if i.currMem > 0.0 && i.krrMem <= 0.4 * i.currMem then Warn else Pass)
    && (i.metrics.None? ==> rules[2] == Warn && rules[3] == Warn)
    && (i.metrics.Some? ==>
          && rules[2] == (if i.metrics.value.oomKilled then Fail else Pass)
          && rules[3] == (if i.metrics.value.restarts >= 10 then Fail else Pass))
    && rules[4] == (if i.forecastPct.Some? && i.forecastPct.value < 80.0 then Pass else Warn)
    && rules[5] == Pass
    && rules[6] == (if i.cpuInsufficient || i.memInsufficient then Warn else Pass)
  }

  function MonthlyCost(cpu: real, mem: real): real {
    25.0 * cpu + 4.0 * (mem / 1024.0)
  }

  predicate Near(x: real, y: real, half: real) {
    -half <= x - y <= half
  }

  /** The figure has no more digits than printed. */
  predicate Whole(x: real) {
    x.Floor as real == x
  }

  predicate Rounded(v: Verdict) {
    Whole(v.currentCost * 100.0) && Whole(v.finalCost * 100.0) && Whole(v.savings * 100.0) && Whole(v.costChangePct * 10.0)
  }

  /** The money figures, no further off than the rounding of their last digit. */
  predicate Costed(i: Input, v: Verdict) {
    var current := MonthlyCost(i.currCpu, i.currMem);
    var final := MonthlyCost(v.finalCpu, v.finalMem);
    && Near(v.currentCost, current, 0.005) && Near(v.finalCost, final, 0.005)
    && (v.failed || current <= 0.0 ==> v.savings == 0.0 && v.costChangePct == 0.0)
    && (!v.failed && current > 0.0 ==>
          Near(v.savings, current - final, 0.005) && Near(v.costChangePct, (current - final) / current * 100.0, 0.05))
  }

  predicate Judgement(i: Input, v: Verdict) {
    && Scored(i, v.score) && (v.failed <==> v.score >= 70)
    && v.risk == (if v.score >= 70 then High else if v.score >= 35 then Medium else Safe)
    && Statuses(i, v.rules)
    && CpuApproved(i, v.failed, v.uncappedCpu) && MemApproved(i, v.failed, v.uncappedMem)
  }

  lemma CutsIff(i: Input)
    ensures CpuCutTooDeep(i) <==> i.currCpu > 0.0 && i.krrCpu <= 0.5 * i.currCpu
    ensures MemCutTooDeep(i) <==> i.currMem > 0.0 && i.krrMem <= 0.4 * i.currMem
  {
    if i.currCpu > 0.0 { CutIff(i.currCpu, i.krrCpu, 0.5); }
    if i.currMem > 0.0 { CutIff(i.currMem, i.krrMem, 0.6); }
  }

  lemma VerdictApproves(i: Input, v: Verdict)
    requires IsVerdict(i, v)
    ensures CpuApproved(i, v.failed, v.uncappedCpu) && MemApproved(i, v.failed, v.uncappedMem)
  {
    CutsIff(i);
  }

  lemma VerdictScores(i: Input, v: Verdict)
    requires IsVerdict(i, v)
    ensures Scored(i, v.score)
  {
    CutsIff(i);
  }

  lemma VerdictReports(i: Input, v: Verdict)
    requires IsVerdict(i, v)
    ensures Statuses(i, v.rules) && WithinLimits(i, v)
  {
    CutsIff(i);
  }

  lemma VerdictJudges(i: Input, v: Verdict)
    requires IsVerdict(i, v)
    ensures Judgement(i, v) && WithinLimits(i, v)
  {
    VerdictScores(i, v);
    VerdictReports(i, v);
    VerdictApproves(i, v);
  }

  lemma RoundedNear(x: real, scale: real)
    requires scale == 10.0 || scale == 100.0
    ensures Near(RoundTo(x, scale), x, 0.5 / scale)
    ensures x == 0.0 ==> RoundTo(x, scale) == 0.0
  {
    RoundIsNearest(x * scale);
    assert x * scale / scale == x;
  }

  lemma RoundedWhole(x: real, scale: real)
    requires scale == 10.0 || scale == 100.0
    ensures Whole(RoundTo(x, scale) * scale)
  {
    var k := RoundHalfEven(x * scale);
    Undone(k, scale);
    assert RoundTo(x, scale) == k as real / scale;
  }

  lemma Undone(k: int, scale: real)
    requires scale == 10.0 || scale == 100.0
    ensures Whole(k as real / scale * scale)
  {
    if scale == 10.0 { assert k as real / 10.0 * 10.0 == k as real; } else { assert k as real / 100.0 * 100.0 == k as real; }
  }

  lemma FiguresRounded(v: Verdict, current: real, final: real, savings: real, change: real)
    requires v.currentCost == RoundTo(current, 100.0) && v.finalCost == RoundTo(final, 100.0)
    requires v.savings == RoundTo(savings, 100.0) && v.costChangePct == RoundTo(change, 10.0)
    ensures Rounded(v)
  {
    RoundedWhole(current, 100.0);
    RoundedWhole(final, 100.0);
    RoundedWhole(savings, 100.0);
    RoundedWhole(change, 10.0);
  }

  lemma VerdictRounded(i: Input, v: Verdict)
    requires IsVerdict(i, v)
    ensures Rounded(v)
  {
    FiguresRounded(v, Cost(i.currCpu, i.currMem), Cost(v.finalCpu, v.finalMem), Savings(i), CostChange(i));
  }

  lemma VerdictCosts(i: Input, v: Verdict)
    requires IsVerdict(i, v)
    ensures Costed(i, v)
  {
    RoundedNear(Cost(i.currCpu, i.currMem), 100.0);
    RoundedNear(Cost(v.finalCpu, v.finalMem), 100.0);
    RoundedNear(Savings(i), 100.0);
    RoundedNear(CostChange(i), 10.0);
    assert MonthlyCost(i.currCpu, i.currMem) == Cost(i.currCpu, i.currMem);
    assert MonthlyCost(v.finalCpu, v.finalMem) == Cost(v.finalCpu, v.finalMem);
  }

  /**
   * The rules applied one after another, overwriting as they go; the outcome is the one the
   * conditions above describe.
   */
  method Evaluate(i: Input) returns (v: Verdict)
    ensures IsVerdict(i, v)
    ensures Judgement(i, v) && WithinLimits(i, v) && Costed(i, v) && Rounded(v)
  {
    var d := ReductionRules(i);
    d := HealthRules(i, d);
    d := LoadRules(i, d);
    var failed := d.score >= 70;
    if failed { d := d.(cpu := i.currCpu, mem := i.currMem); }
    var final := CapToLimits(i, d);
    var currentCost := Cost(i.currCpu, i.currMem);
    var finalCost := Cost(final.cpu, final.mem);
    var change, savings := CompareCosts(i, failed, final);
    v := Verdict(RiskOf(d.score), failed, d.score, final.rules, d.cpu, d.mem, final.cpu, final.mem,
                 RoundTo(change, 10.0), RoundTo(savings, 100.0), RoundTo(currentCost, 100.0), RoundTo(finalCost, 100.0));
    VerdictJudges(i, v);
    VerdictCosts(i, v);
    VerdictRounded(i, v);
  }

  // ---------- all combinations of rules ----------

  predicate NonNegative(i: Input) {
    i.currCpu >= 0.0 && i.currMem >= 0.0 && i.krrCpu >= 0.0 && i.krrMem >= 0.0
  }

  lemma CutIff(curr: real, krr: real, share: real)
    requires curr > 0.0
    ensures (curr - krr) / curr >= share <==> krr <= (1.0 - share) * curr
  {
    var q := (curr - krr) / curr;
    assert q * curr == curr - krr;
    if q >= share {
      assert (q - share) * curr >= 0.0;
    } else {
      assert (share - q) * curr > 0.0;
    }
  }

  /**
   * Whatever the rules do, before the limit cap CPU stays above half and memory above two fifths
   * of the current request, and CPU at 85 percent or more when the forecast is missing.
   */
  lemma PolicyFloor(i: Input)
    requires NonNegative(i)
    ensures i.currCpu > 0.0 ==> UncappedCpu(i) > 0.5 * i.currCpu
    ensures i.currMem > 0.0 ==> UncappedMem(i) > 0.4 * i.currMem
    ensures i.forecastPct.None? ==> UncappedCpu(i) >= 0.85 * i.currCpu
    ensures UncappedCpu(i) >= 0.0 && UncappedMem(i) >= 0.0
  {
    if i.currCpu > 0.0 { CutIff(i.currCpu, i.krrCpu, 0.5); }
    if i.currMem > 0.0 { CutIff(i.currMem, i.krrMem, 0.6); }
  }

  /** An OOM kill, ten restarts or an overall failure leave exactly the current request, cut to the limits. */
  lemma VetoKeepsCurrent(i: Input)
    requires NonNegative(i) && (Vetoed(i) || Failed(i))
    ensures UncappedCpu(i) == i.currCpu && UncappedMem(i) == i.currMem
    ensures CapsTo(i.cpuLimit, i.currCpu, Capped(UncappedCpu(i), i.cpuLimit))
    ensures CapsTo(i.memLimit, i.currMem, Capped(UncappedMem(i), i.memLimit))
  {
  }

  /** When no cap bites, the unrounded saving stays below 60 percent. */
  lemma SavingsBounded(i: Input)
    requires NonNegative(i)
    requires Capped(UncappedCpu(i), i.cpuLimit) == UncappedCpu(i) && Capped(UncappedMem(i), i.memLimit) == UncappedMem(i)
    ensures CostChange(i) < 60.0
  {
    PolicyFloor(i);
    var current := Cost(i.currCpu, i.currMem);
    var final := Cost(UncappedCpu(i), UncappedMem(i));
    if !Failed(i) && current > 0.0 {
      assert final > 0.4 * current;
      assert (current - final) / current < 0.6 by { Share(current - final, current, 0.6); }
    }
  }

  lemma Share(part: real, whole: real, share: real)
    requires whole > 0.0 && part < share * whole
    ensures part / whole < share
  {
    var q := part / whole;
    assert q * whole == part;
    assert q >= share ==> (q - share) * whole >= 0.0;
    assert (q - share) * whole == part - share * whole;
  }

  /**
   * An OOM kill by itself does not fail the evaluation: it does exactly when any other rule
   * raises a risk as well.
   */
  lemma OomFailsIff(i: Input)
    requires OomKilled(i)
    ensures Failed(i) <==>
      CpuCutTooDeep(i) || MemCutTooDeep(i) || Restarting(i) || LoadComing(i) || i.forecastPct.None? || Insufficient(i)
  {
  }

  /** An OOM kill, a calm forecast and a recommendation equal to the request. */
  const OOM_ALONE :=
    Input(1.0, 1024.0, 1.0, 1024.0, Some(Metrics(true, 0, None)), Some(10.0), false, false, None, None)

  /** ... so this input does not fail. */
  lemma OomAlonePasses()
    ensures OomKilled(OOM_ALONE) && Score(OOM_ALONE) == 60 && !Failed(OOM_ALONE) && RiskOf(Score(OOM_ALONE)) == Medium
  {
  }

  /** With neither metrics nor forecast, only a deep cut or missing history fails the evaluation. */
  lemma BlindFailsIff(i: Input)
    requires i.metrics.None? && i.forecastPct.None?
    ensures Failed(i) <==> CpuCutTooDeep(i) || MemCutTooDeep(i) || Insufficient(i)
  {
  }

  // ---------- from and to text ----------

  datatype Spec = Spec(cpu: string, memory: string)

  function LimitOf(text: Option<string>, parse: string -> real): Option<real> {
    if text.Some? && text.value != "" then Some(parse(text.value)) else None
  }

  /** The whole evaluation, from resource texts to the approved texts. */
  method EvaluateOptimization(
    current: Spec, krr: Spec, metrics: Option<Metrics>, forecastPct: Option<real>,
    cpuInsufficient: bool, memInsufficient: bool, cpuLimit: Option<string>, memLimit: Option<string>)
    returns (v: Verdict, approved: Spec)
    ensures var i := Input(ParseCpu(current.cpu), ParseMemory(current.memory), ParseCpu(krr.cpu), ParseMemory(krr.memory),
                           metrics, forecastPct, cpuInsufficient, memInsufficient,
                           if cpuLimit.Some? && cpuLimit.value != "" then Some(ParseCpu(cpuLimit.value)) else None,
                           if memLimit.Some? && memLimit.value != "" then Some(ParseMemory(memLimit.value)) else None);
      && IsVerdict(i, v) && Judgement(i, v) && WithinLimits(i, v) && Costed(i, v) && Rounded(v)
      && (NonNegative(i) ==>
            && v.finalMem >= 0.0
            && -0.5 <= ParseMemory(approved.memory) - v.finalMem <= 0.5
            && -0.005 <= ParseCpu(approved.cpu) - v.finalCpu <= 0.005)
  {
    var i := Input(ParseCpu(current.cpu), ParseMemory(current.memory), ParseCpu(krr.cpu), ParseMemory(krr.memory),
                   metrics, forecastPct, cpuInsufficient, memInsufficient,
                   LimitOf(cpuLimit, ParseCpu), LimitOf(memLimit, ParseMemory));
    v := Evaluate(i);
    approved := Spec(FormatCpu(v.finalCpu), FormatMemory(v.finalMem));
    CpuReadsBack(v.finalCpu);
    if NonNegative(i) {
      PolicyFloor(i);
      MemoryReadsBack(v.finalMem);
    }
  }
}
