/**
 * Jobs whose worker died between the move and the lease. Any scan that lists such a job and gets
 * through its lease phase leaves it leased, whatever else happens meanwhile; one visibility
 * timeout later any undisturbed scan takes it out of processing for good.
 */
module QueueOrphans {
  import opened Wrappers
  import opened QueueStore
  import opened QueueProtocol
  import opened QueueInvariant
  import opened QueueSafety
  import opened QueueRecovery
  import opened QueueSolo
  import opened QueueTiming

  /** No live worker is still going to write this raw job's lease. */
  ghost predicate Orphaned(s: Sys, job: Job) {
    forall w :: w in s.workers ==>
      s.workers[w] != Reserved(job) && !(s.workers[w].Stamped? && s.workers[w].job == job)
  }

  /** An orphan's lease stands until the job leaves processing, and then the raw job never returns. */
  lemma OrphanStep(cfg: Config, s: Sys, e: Event, job: Job, deadline: real)
    requires Inv(cfg, s) && job.id in s.enqueued
    requires job in s.st.processing ==> Orphaned(s, job) && job in s.st.leases && s.st.leases[job] == deadline
    requires job in s.st.processing || Gone(s.st, job)
    ensures var t := Apply(cfg, s, e);
      && (job in t.st.processing ==> Orphaned(t, job) && job in t.st.leases && t.st.leases[job] == deadline)
      && (job in t.st.processing || Gone(t.st, job))
  {
    var t := Apply(cfg, s, e);
    StepInv(cfg, s, e);
    assert Held(s, job);
    assert Held(t, job);
    if Gone(s.st, job) {
      GoneOff(t.st, job);
    } else if job in t.st.processing {
      LeaseKept(cfg, s, e, job);
      NoNewWriter(cfg, s, e, job);
    }
  }

  lemma GoneOff(st: Store, job: Job)
    requires Gone(st, job)
    ensures job !in st.processing
  {
    assert job in st.processing ==> OnList(st, job);
  }

  lemma LeaseKept(cfg: Config, s: Sys, e: Event, job: Job)
    requires Inv(cfg, s) && job in s.st.processing && Orphaned(s, job) && job in s.st.leases
    requires job in Apply(cfg, s, e).st.processing
    ensures var t := Apply(cfg, s, e); job in t.st.leases && t.st.leases[job] == s.st.leases[job]
  {
    match e {
      case Acknowledge(w, replyLost) =>
        if PcOf(s, w).Leased? || PcOf(s, w).Running? { AckLeaseKept(cfg, s, w, replyLost, job); }
      case Go(w) => GoLeaseKept(cfg, s, w, job);
      case _ => OtherLeases(cfg, s, e);
    }
  }

  lemma OtherLeases(cfg: Config, s: Sys, e: Event)
    requires !e.Acknowledge? && !e.Go?
    ensures Apply(cfg, s, e).st.leases == s.st.leases
  {
  }

  lemma AckLeaseKept(cfg: Config, s: Sys, w: WorkerId, replyLost: bool, job: Job)
    requires Core(cfg, s) && job in s.st.leases && (PcOf(s, w).Leased? || PcOf(s, w).Running?)
    requires job in Apply(cfg, s, Acknowledge(w, replyLost)).st.processing
    ensures var t := Apply(cfg, s, Acknowledge(w, replyLost)); job in t.st.leases && t.st.leases[job] == s.st.leases[job]
  {
    AcknowledgedPc(cfg, s, w, replyLost);
    DropTaken(cfg, s, PcOf(s, w).job);
  }

  lemma GoLeaseKept(cfg: Config, s: Sys, w: WorkerId, job: Job)
    requires Inv(cfg, s) && job in s.st.processing && Orphaned(s, job) && job in s.st.leases
    requires job in Apply(cfg, s, Go(w)).st.processing
    ensures var t := Apply(cfg, s, Go(w)); job in t.st.leases && t.st.leases[job] == s.st.leases[job]
  {
    PcNow(cfg, s, w);
    if PcOf(s, w).Executing? {
      DropTaken(cfg, s, PcOf(s, w).job);
      ExecLeases(cfg, s, w, job);
    } else if PcOf(s, w).Cleaning? {
      DropTaken(cfg, s, PcOf(s, w).todo[0]);
      CleanLeases(cfg, s, w, job);
    } else {
      QuietLeases(cfg, s, w, job);
    }
  }

  lemma ExecLeases(cfg: Config, s: Sys, w: WorkerId, job: Job)
    requires PcOf(s, w).Executing? && job in s.st.leases
    requires PcOf(s, w).job != job || PcOf(s, w).job !in Drop(s.st, PcOf(s, w).job).processing
    requires job in Apply(cfg, s, Go(w)).st.processing
    ensures var t := Apply(cfg, s, Go(w)); job in t.st.leases && t.st.leases[job] == s.st.leases[job]
  {
  }

  lemma CleanLeases(cfg: Config, s: Sys, w: WorkerId, job: Job)
    requires PcOf(s, w).Cleaning? && PcOf(s, w).todo != [] && job in s.st.leases
    requires PcOf(s, w).todo[0] !in Drop(s.st, PcOf(s, w).todo[0]).processing
    requires job in Apply(cfg, s, Go(w)).st.processing
    ensures var t := Apply(cfg, s, Go(w)); job in t.st.leases && t.st.leases[job] == s.st.leases[job]
  {
  }

  lemma QuietLeases(cfg: Config, s: Sys, w: WorkerId, job: Job)
    requires !PcOf(s, w).Executing? && !PcOf(s, w).Cleaning?
    requires PcOk(s, PcOf(s, w)) && job in s.st.processing && Orphaned(s, job) && job in s.st.leases
    ensures var t := Apply(cfg, s, Go(w)); job in t.st.leases && t.st.leases[job] == s.st.leases[job]
  {
    if PcOf(s, w).Missing? { GoneOff(s.st, PcOf(s, w).job); }
    if w in s.workers { assert !(s.workers[w].Stamped? && s.workers[w].job == job); }
  }

  lemma DropTaken(cfg: Config, s: Sys, x: Job)
    requires Core(cfg, s)
    ensures x !in Drop(s.st, x).processing
  {
    DropTotals(s.st, x);
    assert x in Drop(s.st, x).processing ==> OnList(Drop(s.st, x), x);
  }

  /** Only the worker the event names moves; only LMOVE creates a writer, only a writer stays one. */
  lemma WritersOnly(cfg: Config, s: Sys, e: Event, v: WorkerId)
    requires v in Apply(cfg, s, e).workers
    ensures var pc := Apply(cfg, s, e).workers[v];
      && (pc.Reserved? ==> pc == PcOf(s, v) || (e.Reserve? && s.st.pending != [] && pc.job == s.st.pending[0]))
      && (pc.Stamped? ==> pc == PcOf(s, v) || PcOf(s, v) == Reserved(pc.job))
  {
    match e
    case Go(w) => GoWriters(cfg, s, w);
    case _ =>
  }

  lemma GoWriters(cfg: Config, s: Sys, w: WorkerId)
    ensures var t := DoGo(cfg, s, w);
      && (t.workers == s.workers || t.workers == s.workers[w := PcOf(t, w)])
      && (PcOf(t, w).Reserved? ==> PcOf(t, w) == PcOf(s, w))
      && (PcOf(t, w).Stamped? ==> PcOf(t, w) == PcOf(s, w) || PcOf(s, w) == Reserved(PcOf(t, w).job))
  {
    GoFrame(cfg, s, w);
    match PcOf(s, w)
    case Reserved(job) => assert PcOf(DoGo(cfg, s, w), w) == Stamped(job, s.clock);
    case Stamped(job, _) => assert PcOf(DoGo(cfg, s, w), w) == Leased(job);
    case Executing(_, _, _, cont) => assert PcOf(DoGo(cfg, s, w), w) == Continue(cont) || PcOf(DoGo(cfg, s, w), w).Watching?;
    case Missing(_, cont) => assert PcOf(DoGo(cfg, s, w), w) == Continue(cont);
    case _ =>
  }

  lemma NoNewWriter(cfg: Config, s: Sys, e: Event, job: Job)
    requires Inv(cfg, s) && job in s.st.processing && Orphaned(s, job)
    ensures Orphaned(Apply(cfg, s, e), job)
  {
    NotPending(cfg, s, job);
    var t := Apply(cfg, s, e);
    forall v | v in t.workers
      ensures t.workers[v] != Reserved(job) && !(t.workers[v].Stamped? && t.workers[v].job == job)
    {
      WritersOnly(cfg, s, e, v);
    }
  }

  lemma {:induction false} OrphanRun(cfg: Config, s: Sys, es: seq<Event>, job: Job, deadline: real)
    requires Inv(cfg, s) && job.id in s.enqueued
    requires job in s.st.processing ==> Orphaned(s, job) && job in s.st.leases && s.st.leases[job] == deadline
    requires job in s.st.processing || Gone(s.st, job)
    ensures var t := Run(cfg, s, es);
      && Inv(cfg, t) && job.id in t.enqueued
      && (job in t.st.processing ==> Orphaned(t, job) && job in t.st.leases && t.st.leases[job] == deadline)
      && (job in t.st.processing || Gone(t.st, job))
  {
    if es != [] {
      var m := Run(cfg, s, es[..|es| - 1]);
      OrphanRun(cfg, s, es[..|es| - 1], job, deadline);
      StepInv(cfg, m, es[|es| - 1]);
      OrphanStep(cfg, m, es[|es| - 1], job, deadline);
    }
  }

  // ---------- the first scan that sees an orphan ----------

  predicate InLeasePhase(pc: Pc) {
    pc.Ensuring? || pc.Adding?
  }

  /** The scan has listed the job and not come to it yet. */
  predicate StillToLease(pc: Pc, job: Job) {
    InLeasePhase(pc) && job in pc.todo
  }

  /** Out of processing for good, or leased, or still on w's list. */
  ghost predicate Seen(s: Sys, w: WorkerId, job: Job) {
    && job.id in s.enqueued
    && (job in s.st.processing || Gone(s.st, job))
    && (job in s.st.processing ==>
          Orphaned(s, job) && (job in s.st.leases || StillToLease(PcOf(s, w), job)))
  }

  lemma OthersPc(cfg: Config, s: Sys, e: Event, w: WorkerId)
    requires InLeasePhase(PcOf(s, w)) && e != Crash(w) && e != Go(w)
    requires PcOf(s, w).todo != []
    ensures PcOf(Apply(cfg, s, e), w) == PcOf(s, w)
  {
    match e
    case Go(v) => GoFrame(cfg, s, v);
    case _ =>
  }

  lemma OwnStep(cfg: Config, s: Sys, w: WorkerId, job: Job)
    requires StillToLease(PcOf(s, w), job)
    ensures var t := Apply(cfg, s, Go(w)); job in t.st.leases || StillToLease(PcOf(t, w), job)
  {
    var pc := PcOf(s, w);
    assert pc.todo == [pc.todo[0]] + pc.todo[1..];
    match pc
    case Adding(now, todo) => assert Apply(cfg, s, Go(w)) == DoAdd(cfg, s, w, now, todo);
    case Ensuring(now, todo) =>
  }

  lemma SeenStep(cfg: Config, s: Sys, e: Event, w: WorkerId, job: Job)
    requires Inv(cfg, s) && Seen(s, w, job) && e != Crash(w)
    ensures Seen(Apply(cfg, s, e), w, job)
  {
    var t := Apply(cfg, s, e);
    StepInv(cfg, s, e);
    assert Held(s, job) && Held(t, job);
    if Gone(s.st, job) {
      GoneOff(t.st, job);
    } else if job in t.st.processing {
      NoNewWriter(cfg, s, e, job);
      if job in s.st.leases {
        LeaseKept(cfg, s, e, job);
      } else if e == Go(w) {
        OwnStep(cfg, s, w, job);
      } else {
        OthersPc(cfg, s, e, w);
      }
    }
  }

  lemma {:induction false} SeenRun(cfg: Config, s: Sys, es: seq<Event>, w: WorkerId, job: Job)
    requires Inv(cfg, s) && Seen(s, w, job) && Crash(w) !in es
    ensures Inv(cfg, Run(cfg, s, es)) && Seen(Run(cfg, s, es), w, job)
  {
    if es != [] {
      SeenRun(cfg, s, es[..|es| - 1], w, job);
      StepInv(cfg, Run(cfg, s, es[..|es| - 1]), es[|es| - 1]);
      SeenStep(cfg, Run(cfg, s, es[..|es| - 1]), es[|es| - 1], w, job);
    }
  }

  /** w's scan has read its clock and is about to list an orphan. */
  ghost predicate AboutToSee(s: Sys, w: WorkerId, job: Job) {
    PcOf(s, w).Listing? && job in s.st.processing && Orphaned(s, job)
  }

  lemma ListingSees(cfg: Config, s: Sys, w: WorkerId, job: Job)
    requires Inv(cfg, s) && AboutToSee(s, w, job)
    ensures Inv(cfg, Apply(cfg, s, Go(w))) && Seen(Apply(cfg, s, Go(w)), w, job)
  {
    StepInv(cfg, s, Go(w));
    NoNewWriter(cfg, s, Go(w), job);
    assert job.id in s.enqueued by { TotalMember(s.st.processing, job); }
    assert Apply(cfg, s, Go(w)) == At(s, w, Ensuring(PcOf(s, w).now, s.st.processing));
  }

  /**
   * The first scan that sees an orphan, in any interleaving: unless its worker dies first, by the
   * time it is past its lease phase the job is out of processing for good or has a lease that
   * ends at most one visibility timeout from then.
   */
  lemma OrphanLeased(cfg: Config, es: seq<Event>, during: seq<Event>, w: WorkerId, job: Job)
    requires AboutToSee(Run(cfg, INIT, es), w, job) && Crash(w) !in during
    requires !InLeasePhase(PcOf(Run(cfg, INIT, es + ([Go(w)] + during)), w))
    ensures var t := Run(cfg, INIT, es + ([Go(w)] + during));
      && Inv(cfg, t) && job.id in t.enqueued
      && (job in t.st.processing || Gone(t.st, job))
      && (job in t.st.processing ==>
            Orphaned(t, job) && job in t.st.leases && t.st.leases[job] <= t.clock + cfg.visibility)
  {
    var s := Run(cfg, INIT, es);
    Reachable(cfg, es);
    ListingSees(cfg, s, w, job);
    RunConcat(cfg, INIT, es, [Go(w)] + during);
    RunStep(cfg, s, Go(w), during);
    SeenRun(cfg, Apply(cfg, s, Go(w)), during, w, job);
    AlwaysTimely(cfg, es + ([Go(w)] + during));
    var t := Run(cfg, INIT, es + ([Go(w)] + during));
    if job in t.st.processing { assert LeaseTimely(cfg, t, job); }
  }

  lemma {:induction false} RunInv(cfg: Config, s: Sys, es: seq<Event>)
    requires Inv(cfg, s)
    ensures Inv(cfg, Run(cfg, s, es))
  {
    if es != [] {
      RunInv(cfg, s, es[..|es| - 1]);
      StepInv(cfg, Run(cfg, s, es[..|es| - 1]), es[|es| - 1]);
    }
  }

  lemma StaysOrphaned(s: Sys, t: Sys, v: WorkerId, job: Job)
    requires Orphaned(s, job) && t.workers == s.workers[v := Idle]
    ensures Orphaned(t, job)
  {
  }

  lemma OrphanGetsLease(cfg: Config, s: Sys, job: Job, stale: seq<Job>)
    requires Core(cfg, s) && cfg.visibility > 0.0 && job in s.st.processing && job !in s.st.leases
    requires IsStaleList(EnsureAll(cfg, s.st, s.clock, s.st.processing), s.clock, stale)
    ensures var t := Recovered(cfg, s.st, s.clock, stale, s.clock).st;
      job in t.processing && job in t.leases && t.leases[job] == s.clock + cfg.visibility
  {
    ProcessingDistinct(cfg, s);
    RecoveryContract(cfg, s.st, s.clock, stale, s.clock);
  }

  /** Undisturbed, the first scan gives an unleased orphan exactly one visibility timeout. */
  lemma OrphanLeasedAlone(cfg: Config, s: Sys, job: Job, v: WorkerId, stale: seq<Job>)
    requires Inv(cfg, s) && cfg.visibility > 0.0
    requires job in s.st.processing && job !in s.st.leases && Orphaned(s, job)
    requires PcOf(s, v).Idle?
    requires IsStaleList(EnsureAll(cfg, s.st, s.clock, s.st.processing), s.clock, stale)
    ensures var t := Run(cfg, s, ScanOf(cfg, s, v, stale));
      && t.st == Recovered(cfg, s.st, s.clock, stale, s.clock).st && OnlyWorker(s, t, v, Idle)
      && Inv(cfg, t) && job in t.st.processing && Orphaned(t, job)
      && job in t.st.leases && t.st.leases[job] == s.clock + cfg.visibility
  {
    SoloScan(cfg, s, v, stale);
    OrphanGetsLease(cfg, s, job, stale);
    RunInv(cfg, s, ScanOf(cfg, s, v, stale));
    StaysOrphaned(s, Run(cfg, s, ScanOf(cfg, s, v, stale)), v, job);
  }

  /** A scan begun at or after the orphan's deadline takes it out of processing. */
  lemma ScanTakesOrphan(cfg: Config, u: Sys, v: WorkerId, job: Job, stale: seq<Job>)
    requires Inv(cfg, u) && cfg.visibility > 0.0 && PcOf(u, v).Idle?
    requires job in u.st.processing ==> job in u.st.leases && u.st.leases[job] <= u.clock
    requires IsStaleList(EnsureAll(cfg, u.st, u.clock, u.st.processing), u.clock, stale)
    ensures var x := Run(cfg, u, ScanOf(cfg, u, v, stale));
      && x.st == Recovered(cfg, u.st, u.clock, stale, u.clock).st && x.acked == u.acked
      && job !in x.st.processing
  {
    SoloScan(cfg, u, v, stale);
    ProcessingDistinct(cfg, u);
    RecoveryContract(cfg, u.st, u.clock, stale, u.clock);
  }

  lemma LeasedOrphanRecovered(
    cfg: Config, t: Sys, after: seq<Event>, v: WorkerId, job: Job, stale: seq<Job>, deadline: real)
    requires Inv(cfg, t) && cfg.visibility > 0.0 && job.id in t.enqueued
    requires job in t.st.processing || Gone(t.st, job)
    requires job in t.st.processing ==> Orphaned(t, job) && job in t.st.leases && t.st.leases[job] == deadline
    requires var u := Run(cfg, t, after);
      && PcOf(u, v).Idle? && u.clock >= deadline
      && IsStaleList(EnsureAll(cfg, u.st, u.clock, u.st.processing), u.clock, stale)
    ensures var u := Run(cfg, t, after); var x := Run(cfg, u, ScanOf(cfg, u, v, stale));
      && x.st == Recovered(cfg, u.st, u.clock, stale, u.clock).st && x.acked == u.acked
      && job !in x.st.processing && Gone(x.st, job)
  {
    var u := Run(cfg, t, after);
    OrphanRun(cfg, t, after, job, deadline);
    ScanTakesOrphan(cfg, u, v, job, stale);
    OrphanRun(cfg, u, ScanOf(cfg, u, v, stale), job, deadline);
  }

  /**
   * An orphan is always recovered: whatever happens during the first scan that sees it and
   * afterwards, the commands of any undisturbed scan begun at least one visibility timeout after
   * that scan's lease phase leave the job out of processing, and the raw job never returns.
   */
  lemma OrphanRecovered(
    cfg: Config, es: seq<Event>, during: seq<Event>, after: seq<Event>,
    w: WorkerId, v: WorkerId, job: Job, stale: seq<Job>)
    requires cfg.visibility > 0.0
    requires AboutToSee(Run(cfg, INIT, es), w, job) && Crash(w) !in during
    requires var t := Run(cfg, INIT, es + ([Go(w)] + during)); var u := Run(cfg, t, after);
      && !InLeasePhase(PcOf(t, w))
      && PcOf(u, v).Idle? && u.clock >= t.clock + cfg.visibility
      && IsStaleList(EnsureAll(cfg, u.st, u.clock, u.st.processing), u.clock, stale)
    ensures var u := Run(cfg, Run(cfg, INIT, es + ([Go(w)] + during)), after);
      var x := Run(cfg, u, ScanOf(cfg, u, v, stale));
      && x.st == Recovered(cfg, u.st, u.clock, stale, u.clock).st && x.acked == u.acked
      && job !in x.st.processing && Gone(x.st, job)
  {
    OrphanLeased(cfg, es, during, w, job);
    var t := Run(cfg, INIT, es + ([Go(w)] + during));
    LeasedOrphanRecovered(cfg, t, after, v, job, stale, if job in t.st.processing then t.st.leases[job] else t.clock);
  }
}
