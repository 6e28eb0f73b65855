/**
 * A recovery scan run command by command, undisturbed, does what the function `Recovered` says;
 * so the recovery contract holds of the protocol.
 */
module QueueSolo {
  import opened Wrappers
  import opened QueueStore
  import opened QueueProtocol
  import opened QueueInvariant
  import opened QueueSafety
  import opened QueueRecovery

  /** The worker sends its next n commands and nobody else moves. */
  ghost function Alone(cfg: Config, s: Sys, w: WorkerId, n: nat): Sys
    decreases n
  {
    if n == 0 then s else Alone(cfg, Apply(cfg, s, Go(w)), w, n - 1)
  }

  function Steps(w: WorkerId, n: nat): seq<Event> {
    if n == 0 then [] else [Go(w)] + Steps(w, n - 1)
  }

  lemma {:induction false} AloneThen(cfg: Config, s: Sys, w: WorkerId, n: nat, m: nat)
    ensures Alone(cfg, s, w, n + m) == Alone(cfg, Alone(cfg, s, w, n), w, m)
    decreases n
  {
    if n > 0 { AloneThen(cfg, Apply(cfg, s, Go(w)), w, n - 1, m); }
  }

  lemma RunOne(cfg: Config, s: Sys, e: Event)
    ensures Run(cfg, s, [e]) == Apply(cfg, s, e)
  {
    assert [e][..0] == [];
    assert Run(cfg, s, [e][..0]) == s;
  }

  lemma {:induction false} AloneIsRun(cfg: Config, s: Sys, w: WorkerId, n: nat)
    ensures Run(cfg, s, Steps(w, n)) == Alone(cfg, s, w, n)
    decreases n
  {
    if n > 0 {
      RunConcat(cfg, s, [Go(w)], Steps(w, n - 1));
      RunOne(cfg, s, Go(w));
      AloneIsRun(cfg, Apply(cfg, s, Go(w)), w, n - 1);
    }
  }

  // ---------- the commands of one scan ----------

  /** A lookup for every job and a ZADD for each one without a lease. */
  function EnsureCost(cfg: Config, st: Store, now: real, todo: seq<Job>): nat
    decreases |todo|
  {
    if todo == [] then 0
    else if todo[0] in st.leases then 1 + EnsureCost(cfg, st, now, todo[1..])
    else 2 + EnsureCost(cfg, Lease(st, todo[0], now + cfg.visibility), now, todo[1..])
  }

  /** A lookup and a clean-up for a completed job, a lookup and a whole retry for any other. */
  function SweepCost(cfg: Config, r: Recovery, todo: seq<Job>, at: real): nat
    decreases |todo|
  {
    if todo == [] then 1
    else
      (if todo[0].id in r.st.completed then 2 else 4) + SweepCost(cfg, SweepOne(cfg, r, todo[0], at), todo[1..], at)
  }

  /** All commands w sends for one scan begun now, when nobody else moves until it is done. */
  function ScanOf(cfg: Config, s: Sys, w: WorkerId, stale: seq<Job>): seq<Event> {
    var now := s.clock;
    var e := EnsureAll(cfg, s.st, now, s.st.processing);
    [Scan(w), Go(w)] + Steps(w, EnsureCost(cfg, s.st, now, s.st.processing))
      + [StaleScan(w, stale)] + Steps(w, SweepCost(cfg, Recovery(e, NONE), stale, now))
  }

  /** Same system up to the store, one worker's program counter and the log of pushes and leases. */
  ghost predicate OnlyWorker(s: Sys, t: Sys, w: WorkerId, pc: Pc) {
    && t.workers == s.workers[w := pc]
    && t.clock == s.clock && t.movedAt == s.movedAt && t.enqueued == s.enqueued && t.acked == s.acked
  }

  lemma OnlyWorkerThen(s: Sys, m: Sys, t: Sys, w: WorkerId, first: Pc, second: Pc)
    requires OnlyWorker(s, m, w, first) && OnlyWorker(m, t, w, second)
    ensures OnlyWorker(s, t, w, second)
  {
  }

  lemma SoloEnsureOne(cfg: Config, s: Sys, w: WorkerId, now: real, todo: seq<Job>)
    requires PcOf(s, w) == Ensuring(now, todo) && todo != []
    ensures var t := Alone(cfg, s, w, if todo[0] in s.st.leases then 1 else 2);
      && OnlyWorker(s, t, w, Ensuring(now, todo[1..]))
      && t.st == if todo[0] in s.st.leases then s.st else Lease(s.st, todo[0], now + cfg.visibility)
  {
    var a := Apply(cfg, s, Go(w));
    assert Alone(cfg, s, w, 1) == a;
    if todo[0] in s.st.leases {
      assert a == At(s, w, Ensuring(now, todo[1..]));
    } else {
      assert a == At(s, w, Adding(now, todo));
      assert Alone(cfg, s, w, 2) == Alone(cfg, a, w, 1) == Apply(cfg, a, Go(w));
      assert Apply(cfg, a, Go(w)) == DoAdd(cfg, a, w, now, todo);
    }
  }

  lemma {:induction false} SoloEnsure(cfg: Config, s: Sys, w: WorkerId, now: real, todo: seq<Job>)
    requires PcOf(s, w) == Ensuring(now, todo)
    ensures var t := Alone(cfg, s, w, EnsureCost(cfg, s.st, now, todo));
      OnlyWorker(s, t, w, Ensuring(now, [])) && t.st == EnsureAll(cfg, s.st, now, todo)
    decreases |todo|
  {
    if todo != [] {
      var k := if todo[0] in s.st.leases then 1 else 2;
      SoloEnsureOne(cfg, s, w, now, todo);
      var m := Alone(cfg, s, w, k);
      assert PcOf(m, w) == Ensuring(now, todo[1..]);
      SoloEnsure(cfg, m, w, now, todo[1..]);
      var n := EnsureCost(cfg, m.st, now, todo[1..]);
      AloneThen(cfg, s, w, k, n);
      assert EnsureCost(cfg, s.st, now, todo) == k + n;
      OnlyWorkerThen(s, m, Alone(cfg, m, w, n), w, Ensuring(now, todo[1..]), Ensuring(now, []));
    }
  }

  /** One job of the sweep: two commands when completed, four otherwise. */
  lemma SoloSweepOne(cfg: Config, s: Sys, w: WorkerId, now: real, todo: seq<Job>, tally: Tally)
    requires PcOf(s, w) == Sweeping(now, todo) && todo != []
    ensures var t := Alone(cfg, s, w, if todo[0].id in s.st.completed then 2 else 4);
      && OnlyWorker(s, t, w, Sweeping(now, todo[1..]))
      && t.st == SweepOne(cfg, Recovery(s.st, tally), todo[0], s.clock).st
  {
    var a := Apply(cfg, s, Go(w));
    if todo[0].id in s.st.completed {
      assert PcOf(a, w) == Cleaning(now, todo);
      assert Alone(cfg, s, w, 2) == Alone(cfg, a, w, 1) == Apply(cfg, a, Go(w));
    } else {
      var b := Apply(cfg, a, Go(w));
      var c := Apply(cfg, b, Go(w));
      var d := Apply(cfg, c, Go(w));
      assert Alone(cfg, s, w, 4) == d by {
        assert Alone(cfg, s, w, 4) == Alone(cfg, a, w, 3) == Alone(cfg, b, w, 2) == Alone(cfg, c, w, 1) == d;
      }
      SoloRetry(cfg, a, w);
    }
  }

  lemma SoloRetry(cfg: Config, a: Sys, w: WorkerId)
    requires PcOf(a, w).Watching?
    ensures var pc := PcOf(a, w);
      var t := Apply(cfg, Apply(cfg, Apply(cfg, a, Go(w)), Go(w)), Go(w));
      && OnlyWorker(a, t, w, Continue(pc.cont))
      && t.st == if pc.job in a.st.processing then Requeue(cfg, a.st, pc.job, pc.next) else Unlease(a.st, pc.job)
  {
    var pc := PcOf(a, w);
    var b := Apply(cfg, a, Go(w));
    assert b == At(a, w, Looking(pc.job, pc.next, a.st.version, pc.cont));
    var c := Apply(cfg, b, Go(w));
    if pc.job in a.st.processing {
      assert c == At(b, w, Executing(pc.job, pc.next, a.st.version, pc.cont));
    } else {
      assert c == At(b, w, Missing(pc.job, pc.cont));
    }
  }

  lemma {:induction false} SoloSweep(cfg: Config, s: Sys, w: WorkerId, now: real, todo: seq<Job>, r: Recovery)
    requires PcOf(s, w) == Sweeping(now, todo) && r.st == s.st
    ensures var t := Alone(cfg, s, w, SweepCost(cfg, r, todo, s.clock));
      OnlyWorker(s, t, w, Idle) && t.st == SweepAll(cfg, r, todo, s.clock).st
    decreases |todo|
  {
    if todo == [] {
      assert Alone(cfg, s, w, 1) == Apply(cfg, s, Go(w));
    } else {
      var k := if todo[0].id in s.st.completed then 2 else 4;
      SoloSweepOne(cfg, s, w, now, todo, r.tally);
      var m := Alone(cfg, s, w, k);
      var next := SweepOne(cfg, r, todo[0], s.clock);
      SoloSweep(cfg, m, w, now, todo[1..], next);
      AloneThen(cfg, s, w, k, SweepCost(cfg, next, todo[1..], s.clock));
    }
  }

  lemma Then(cfg: Config, s: Sys, a: seq<Event>, b: seq<Event>)
    ensures Run(cfg, s, a + b) == Run(cfg, Run(cfg, s, a), b)
    ensures |b| == 1 ==> Run(cfg, s, a + b) == Apply(cfg, Run(cfg, s, a), b[0])
  {
    RunConcat(cfg, s, a, b);
    if |b| == 1 {
      assert b == [b[0]];
      RunOne(cfg, Run(cfg, s, a), b[0]);
    }
  }

  /** Clock reading and LRANGE. */
  lemma ScanListed(cfg: Config, s: Sys, w: WorkerId)
    requires PcOf(s, w).Idle?
    ensures var t := Apply(cfg, Apply(cfg, s, Scan(w)), Go(w));
      OnlyWorker(s, t, w, Ensuring(s.clock, s.st.processing)) && t.st == s.st
  {
    var a := Apply(cfg, s, Scan(w));
    assert a == At(s, w, Listing(s.clock));
    assert PcOf(a, w) == Listing(s.clock);
    assert Apply(cfg, a, Go(w)) == At(a, w, Ensuring(s.clock, s.st.processing));
  }

  lemma StaleListed(cfg: Config, s: Sys, w: WorkerId, now: real, stale: seq<Job>)
    requires PcOf(s, w) == Ensuring(now, []) && IsStaleList(s.st, now, stale)
    ensures Apply(cfg, s, StaleScan(w, stale)) == At(s, w, Sweeping(now, stale))
  {
  }

  /** The command-level scan refines the function: same store, same clock, worker idle again. */
  lemma SoloScan(cfg: Config, s: Sys, w: WorkerId, stale: seq<Job>)
    requires PcOf(s, w).Idle?
    requires IsStaleList(EnsureAll(cfg, s.st, s.clock, s.st.processing), s.clock, stale)
    ensures var t := Run(cfg, s, ScanOf(cfg, s, w, stale));
      && OnlyWorker(s, t, w, Idle)
      && t.st == Recovered(cfg, s.st, s.clock, stale, s.clock).st
  {
    var now := s.clock;
    ScanListed(cfg, s, w);
    var b := Apply(cfg, Apply(cfg, s, Scan(w)), Go(w));
    SoloEnsure(cfg, b, w, now, s.st.processing);
    var n := EnsureCost(cfg, s.st, now, s.st.processing);
    var c := Alone(cfg, b, w, n);
    StaleListed(cfg, c, w, now, stale);
    var r := Recovery(EnsureAll(cfg, s.st, now, s.st.processing), NONE);
    SoloSweep(cfg, At(c, w, Sweeping(now, stale)), w, now, stale, r);
    ScanIsAlone(cfg, s, w, n, stale, SweepCost(cfg, r, stale, now));
  }

  /** The events of a scan, one phase after another. */
  lemma ScanIsAlone(cfg: Config, s: Sys, w: WorkerId, n: nat, stale: seq<Job>, m: nat)
    ensures var b := Apply(cfg, Apply(cfg, s, Scan(w)), Go(w));
      Run(cfg, s, [Scan(w), Go(w)] + Steps(w, n) + [StaleScan(w, stale)] + Steps(w, m))
      == Alone(cfg, Apply(cfg, Alone(cfg, b, w, n), StaleScan(w, stale)), w, m)
  {
    var es := [Scan(w)];
    RunOne(cfg, s, Scan(w));
    Then(cfg, s, es, [Go(w)]);
    assert es + [Go(w)] == [Scan(w), Go(w)];
    es := [Scan(w), Go(w)];
    Then(cfg, s, es, Steps(w, n));
    AloneIsRun(cfg, Run(cfg, s, es), w, n);
    es := es + Steps(w, n);
    Then(cfg, s, es, [StaleScan(w, stale)]);
    es := es + [StaleScan(w, stale)];
    Then(cfg, s, es, Steps(w, m));
    AloneIsRun(cfg, Run(cfg, s, es), w, m);
  }

  /**
   * The recovery contract of the protocol: from any reachable state the commands of one undisturbed
   * scan end with every processing job leased beyond the scan's clock and no lease at or
   * before it, leave unexpired jobs and their order alone, and send every other job on, with
   * one more attempt, to pending or dead-letter, unless it was already marked completed.
   */
  lemma SoloRecoveryContract(cfg: Config, es: seq<Event>, w: WorkerId, stale: seq<Job>)
    requires cfg.visibility > 0.0
    requires var s := Run(cfg, INIT, es);
      PcOf(s, w).Idle? && IsStaleList(EnsureAll(cfg, s.st, s.clock, s.st.processing), s.clock, stale)
    ensures var s := Run(cfg, INIT, es);
      var t := Run(cfg, INIT, es + ScanOf(cfg, s, w, stale));
      var tally := Recovered(cfg, s.st, s.clock, stale, s.clock).tally;
      && t.clock == s.clock && t.acked == s.acked && PcOf(t, w).Idle?
      && (forall j :: j in t.st.leases ==> t.st.leases[j] > s.clock)
      && (forall j :: j in t.st.processing ==> j in t.st.leases)
      && (forall j :: j in t.st.processing <==> j in s.st.processing && Unexpired(s.st, s.clock, j))
      && t.st.processing == Keep(s.st.processing, stale)
      && t.st.pending == s.st.pending + Successors(cfg, s.st, stale, s.clock, false)
      && t.st.dead == s.st.dead + Successors(cfg, s.st, stale, s.clock, true)
      && |t.st.pending| == |s.st.pending| + tally.retried
      && |t.st.dead| == |s.st.dead| + tally.deadLettered
      && t.st.completed == s.st.completed
  {
    Reachable(cfg, es);
    var s := Run(cfg, INIT, es);
    SoloScan(cfg, s, w, stale);
    RunConcat(cfg, INIT, es, ScanOf(cfg, s, w, stale));
    ProcessingDistinct(cfg, s);
    RecoveryContract(cfg, s.st, s.clock, stale, s.clock);
  }
}
