/**
 * When a recovery scan may take a job away. The clock is shared and never runs backwards; a
 * lease runs one visibility timeout from the clock reading it was computed from. A worker reads
 * the clock after the move, but a scan reads it before it lists the processing jobs, so a scan
 * can lease a job from a reading older than the move: exactly then it may be recovered early.
 */
module QueueTiming {
  import opened Wrappers
  import opened QueueStore
  import opened QueueProtocol
  import opened QueueInvariant
  import opened QueueSafety
  import opened QueueRecovery
  import opened QueueSolo

  ghost predicate Moved(s: Sys, job: Job) {
    job in s.movedAt && s.movedAt[job] <= s.clock
  }

  /** At `now` the job had been in processing for a visibility timeout, or was leased early. */
  ghost predicate Due(cfg: Config, s: Sys, job: Job, now: real) {
    job in s.movedAt && (job in s.early || s.movedAt[job] + cfg.visibility <= now)
  }

  ghost predicate AllDue(cfg: Config, s: Sys, todo: seq<Job>, now: real) {
    now <= s.clock && forall j :: j in todo ==> Due(cfg, s, j, now)
  }

  ghost predicate ContTimely(cfg: Config, s: Sys, cont: Cont) {
    cont.Resume? ==> AllDue(cfg, s, cont.rest, cont.now)
  }

  ghost predicate RetryTimely(cfg: Config, s: Sys, job: Job, cont: Cont) {
    cont.Resume? ==> AllDue(cfg, s, [job] + cont.rest, cont.now)
  }

  ghost predicate PcTimely(cfg: Config, s: Sys, pc: Pc) {
    match pc
    case Reserved(job) => Moved(s, job)
    case Stamped(job, read) => job in s.movedAt && s.movedAt[job] <= read <= s.clock
    case Watching(job, _, cont) => RetryTimely(cfg, s, job, cont)
    case Looking(job, _, _, cont) => RetryTimely(cfg, s, job, cont)
    case Executing(job, _, _, cont) => RetryTimely(cfg, s, job, cont)
    case Missing(_, cont) => ContTimely(cfg, s, cont)
    case Listing(now) => now <= s.clock
    case Ensuring(now, todo) => now <= s.clock && forall j :: j in todo ==> j in s.movedAt
    case Adding(now, todo) => now <= s.clock && forall j :: j in todo ==> j in s.movedAt
    case Sweeping(now, todo) => AllDue(cfg, s, todo, now)
    case Cleaning(now, todo) => AllDue(cfg, s, todo, now)
    case _ => true
  }

  ghost predicate LeaseTimely(cfg: Config, s: Sys, job: Job) {
    && job in s.movedAt && job in s.origin && job in s.st.leases
    && s.st.leases[job] == s.origin[job] + cfg.visibility && s.origin[job] <= s.clock
    && (job in s.early || s.movedAt[job] <= s.origin[job])
  }

  ghost predicate Timely(cfg: Config, s: Sys) {
    && (forall w :: w in s.workers ==> PcTimely(cfg, s, s.workers[w]))
    && (forall j :: j in s.st.leases ==> LeaseTimely(cfg, s, j))
    && (forall j :: j in s.st.processing ==> Moved(s, j))
  }

  /** Time and the record of moves only grow. */
  ghost predicate Later(s: Sys, t: Sys) {
    && s.clock <= t.clock
    && s.early <= t.early
    && forall j :: j in s.movedAt ==> j in t.movedAt && t.movedAt[j] == s.movedAt[j]
  }

  lemma PcTimelyLater(cfg: Config, s: Sys, t: Sys, pc: Pc)
    requires PcTimely(cfg, s, pc) && Later(s, t)
    ensures PcTimely(cfg, t, pc)
  {
    assert forall j, now :: Due(cfg, s, j, now) ==> Due(cfg, t, j, now);
  }

  lemma AssembleTimely(cfg: Config, s: Sys, t: Sys, w: WorkerId)
    requires Timely(cfg, s) && Later(s, t)
    requires t.workers == s.workers || t.workers == s.workers[w := PcOf(t, w)]
    requires PcTimely(cfg, t, PcOf(t, w))
    requires forall j :: j in t.st.leases ==>
      (j in s.st.leases && t.st.leases[j] == s.st.leases[j] && j in t.origin && j in s.origin && t.origin[j] == s.origin[j])
      || LeaseTimely(cfg, t, j)
    requires forall j :: j in t.st.processing ==> j in s.st.processing || Moved(t, j)
    ensures Timely(cfg, t)
  {
    forall v | v in t.workers
      ensures PcTimely(cfg, t, t.workers[v])
    {
      if v in s.workers { PcTimelyLater(cfg, s, t, s.workers[v]); }
    }
    forall j | j in t.st.leases
      ensures LeaseTimely(cfg, t, j)
    {
      if !LeaseTimely(cfg, t, j) { assert LeaseTimely(cfg, s, j); }
    }
  }

  lemma ReserveTimely(cfg: Config, s: Sys, w: WorkerId)
    requires Inv(cfg, s) && Timely(cfg, s) && s.st.pending != []
    ensures Timely(cfg, DoReserve(s, w))
  {
    var t := DoReserve(s, w);
    var job := s.st.pending[0];
    assert job !in s.movedAt by { PendingUnmoved(cfg, s, job); }
    AssembleTimely(cfg, s, t, w);
  }

  /** A raw job is moved to processing at most once. */
  lemma PendingUnmoved(cfg: Config, s: Sys, job: Job)
    requires Inv(cfg, s) && job in s.st.pending
    ensures job !in s.movedAt
  {
    if job in s.movedAt {
      assert Held(s, job) && OnList(s.st, job);
      if job in s.st.processing { NotPending(cfg, s, job); }
    }
  }

  lemma StampTimely(cfg: Config, s: Sys, w: WorkerId)
    requires Timely(cfg, s) && PcOf(s, w).Stamped? && PcTimely(cfg, s, PcOf(s, w))
    ensures Timely(cfg, DoStamp(cfg, s, w, PcOf(s, w).job, PcOf(s, w).read))
  {
    var pc := PcOf(s, w);
    var t := DoStamp(cfg, s, w, pc.job, pc.read);
    LeasesRenewed(cfg, s, t, pc.job);
    AssembleTimely(cfg, s, t, w);
  }

  lemma LeasesRenewed(cfg: Config, s: Sys, t: Sys, job: Job)
    requires Timely(cfg, s)
    requires t.st.leases.Keys == s.st.leases.Keys + {job} && t.origin.Keys == s.origin.Keys + {job}
    requires forall j :: j in s.st.leases && j != job ==> t.st.leases[j] == s.st.leases[j]
    requires forall j :: j in s.origin && j != job ==> t.origin[j] == s.origin[j]
    ensures forall j :: j in t.st.leases && j != job ==>
      j in s.st.leases && t.st.leases[j] == s.st.leases[j] && j in t.origin && j in s.origin && t.origin[j] == s.origin[j]
  {
    assert forall j :: j in s.st.leases ==> LeaseTimely(cfg, s, j);
  }

  lemma AddTimely(cfg: Config, s: Sys, w: WorkerId)
    requires Timely(cfg, s) && PcOf(s, w).Adding? && PcOf(s, w).todo != [] && PcTimely(cfg, s, PcOf(s, w))
    ensures Timely(cfg, DoAdd(cfg, s, w, PcOf(s, w).now, PcOf(s, w).todo))
  {
    var pc := PcOf(s, w);
    var t := DoAdd(cfg, s, w, pc.now, pc.todo);
    assert pc.todo[0] in pc.todo;
    assert forall j :: j in s.st.leases ==> LeaseTimely(cfg, s, j);
    if pc.todo[0] !in s.st.leases { LeasesRenewed(cfg, s, t, pc.todo[0]); }
    AssembleTimely(cfg, s, t, w);
  }

  lemma StaleDue(cfg: Config, s: Sys, w: WorkerId, stale: seq<Job>)
    requires Timely(cfg, s) && PcOf(s, w).Ensuring? && IsStaleList(s.st, PcOf(s, w).now, stale)
    requires PcTimely(cfg, s, PcOf(s, w))
    ensures AllDue(cfg, s, stale, PcOf(s, w).now)
  {
    forall j | j in stale
      ensures Due(cfg, s, j, PcOf(s, w).now)
    {
      assert LeaseTimely(cfg, s, j);
    }
  }

  /** The commands that move no job into processing and write no lease. */
  lemma PlainTimely(cfg: Config, s: Sys, t: Sys, w: WorkerId)
    requires Timely(cfg, s)
    requires s.clock <= t.clock && t.movedAt == s.movedAt && t.early == s.early && t.origin == s.origin
    requires t.workers == s.workers || t.workers == s.workers[w := PcOf(t, w)]
    requires PcTimely(cfg, t, PcOf(t, w))
    requires forall j :: j in t.st.leases ==> j in s.st.leases && t.st.leases[j] == s.st.leases[j]
    requires forall j :: j in t.st.processing ==> j in s.st.processing
    ensures Timely(cfg, t)
  {
    assert forall j :: j in s.st.leases ==> LeaseTimely(cfg, s, j);
    AssembleTimely(cfg, s, t, w);
  }

  lemma PlainGo(cfg: Config, s: Sys, w: WorkerId)
    requires Inv(cfg, s) && Timely(cfg, s) && PcTimely(cfg, s, PcOf(s, w)) && PcOk(s, PcOf(s, w))
    requires !PcOf(s, w).Stamped? && !PcOf(s, w).Adding?
    ensures Timely(cfg, DoGo(cfg, s, w))
  {
    var t := DoGo(cfg, s, w);
    GoFrame(cfg, s, w);
    PlainGoPc(cfg, s, w);
    PlainGoStore(cfg, s, w);
    assert PcTimely(cfg, t, PcOf(t, w)) by { PcTimelyLater(cfg, s, t, PcOf(t, w)); }
    PlainTimely(cfg, s, t, w);
  }

  ghost predicate OnlyFewer(s: Sys, t: Sys) {
    && t.clock == s.clock && t.movedAt == s.movedAt && t.early == s.early && t.origin == s.origin
    && (forall j :: j in t.st.leases ==> j in s.st.leases && t.st.leases[j] == s.st.leases[j])
    && (forall j :: j in t.st.processing ==> j in s.st.processing)
  }

  lemma PlainGoStore(cfg: Config, s: Sys, w: WorkerId)
    requires Inv(cfg, s) && PcOk(s, PcOf(s, w)) && !PcOf(s, w).Stamped? && !PcOf(s, w).Adding?
    ensures OnlyFewer(s, DoGo(cfg, s, w))
  {
    var pc := PcOf(s, w);
    if pc.Executing? {
      DropTotals(s.st, pc.job);
      ExecFewer(cfg, s, w);
    } else if pc.Cleaning? {
      DropTotals(s.st, pc.todo[0]);
    } else {
      QuietFewer(cfg, s, w);
    }
  }

  lemma ExecFewer(cfg: Config, s: Sys, w: WorkerId)
    requires PcOf(s, w).Executing?
    requires forall j :: j in Drop(s.st, PcOf(s, w).job).processing ==> j in s.st.processing
    ensures OnlyFewer(s, DoGo(cfg, s, w))
  {
  }

  lemma QuietFewer(cfg: Config, s: Sys, w: WorkerId)
    requires var pc := PcOf(s, w); !pc.Executing? && !pc.Cleaning? && !pc.Stamped? && !pc.Adding?
    ensures OnlyFewer(s, DoGo(cfg, s, w))
  {
    match PcOf(s, w)
    case Missing(job, cont) => assert DoGo(cfg, s, w).st == Unlease(s.st, job);
    case _ =>
  }

  lemma PlainGoPc(cfg: Config, s: Sys, w: WorkerId)
    requires Timely(cfg, s) && PcTimely(cfg, s, PcOf(s, w)) && PcOk(s, PcOf(s, w))
    requires !PcOf(s, w).Stamped? && !PcOf(s, w).Adding?
    ensures PcTimely(cfg, s, PcOf(DoGo(cfg, s, w), w))
  {
    match PcOf(s, w)
    case Executing(job, next, seen, cont) =>
      assert forall j :: j in ContJobs(cont) ==> j in [job] + ContJobs(cont);
      assert PcOf(DoGo(cfg, s, w), w) == Continue(cont) || PcOf(DoGo(cfg, s, w), w) == Watching(job, next, cont);
    case Looking(job, next, seen, cont) =>
      assert forall j :: j in ContJobs(cont) ==> j in [job] + ContJobs(cont);
    case Missing(_, cont) =>
      assert PcOf(DoGo(cfg, s, w), w) == Continue(cont);
    case Sweeping(now, todo) =>
      if todo != [] { assert [todo[0]] + todo[1..] == todo; }
    case Watching(job, next, cont) =>
      assert PcOf(DoGo(cfg, s, w), w) == Looking(job, next, s.st.version, cont);
    case _ =>
  }

  lemma StepTimely(cfg: Config, s: Sys, e: Event)
    requires Inv(cfg, s) && Timely(cfg, s)
    ensures Timely(cfg, Apply(cfg, s, e))
  {
    match e {
      case Reserve(w) => if PcOf(s, w).Idle? && s.st.pending != [] { ReserveTimely(cfg, s, w); }
      case Go(w) => GoTimely(cfg, s, w);
      case Acknowledge(w, replyLost) =>
        if PcOf(s, w).Leased? || PcOf(s, w).Running? { AcknowledgeTimely(cfg, s, w, replyLost); }
      case StaleScan(w, _) => PointerTimely(cfg, s, e, w);
      case Scan(w) => PointerTimely(cfg, s, e, w);
      case Fail(w, _) => PointerTimely(cfg, s, e, w);
      case Crash(w) => PointerTimely(cfg, s, e, w);
      case _ => EnvironmentTimely(cfg, s, e);
    }
  }

  lemma EnvironmentTimely(cfg: Config, s: Sys, e: Event)
    requires Timely(cfg, s) && (e.Tick? || e.Push? || e.Expire?)
    ensures Timely(cfg, Apply(cfg, s, e))
  {
    OtherTimely(cfg, s, Apply(cfg, s, e));
  }

  lemma GoTimely(cfg: Config, s: Sys, w: WorkerId)
    requires Inv(cfg, s) && Timely(cfg, s)
    ensures Timely(cfg, Apply(cfg, s, Go(w)))
  {
    PcNow(cfg, s, w);
    if PcOf(s, w).Stamped? {
      StampTimely(cfg, s, w);
    } else if PcOf(s, w).Adding? {
      if PcOf(s, w).todo != [] { AddTimely(cfg, s, w); }
    } else {
      PlainGo(cfg, s, w);
    }
  }

  lemma AcknowledgeTimely(cfg: Config, s: Sys, w: WorkerId, replyLost: bool)
    requires Inv(cfg, s) && Timely(cfg, s) && (PcOf(s, w).Leased? || PcOf(s, w).Running?)
    ensures Timely(cfg, Apply(cfg, s, Acknowledge(w, replyLost)))
  {
    AcknowledgedPc(cfg, s, w, replyLost);
    DropTotals(s.st, PcOf(s, w).job);
    PlainTimely(cfg, s, Apply(cfg, s, Acknowledge(w, replyLost)), w);
  }

  lemma PointerTimely(cfg: Config, s: Sys, e: Event, w: WorkerId)
    requires Timely(cfg, s)
    requires e == Scan(w) || e == Crash(w) || (e.Fail? && e.w == w) || (e.StaleScan? && e.w == w)
    ensures Timely(cfg, Apply(cfg, s, e))
  {
    var t := Apply(cfg, s, e);
    assert t.st == s.st;
    if t != s {
      if e.StaleScan? { StaleDue(cfg, s, w, e.stale); }
      assert PcTimely(cfg, t, PcOf(t, w));
      PlainTimely(cfg, s, t, w);
    }
  }

  lemma OtherTimely(cfg: Config, s: Sys, t: Sys)
    requires Timely(cfg, s)
    requires s.clock <= t.clock && t.movedAt == s.movedAt && t.early == s.early && t.origin == s.origin
    requires t.workers == s.workers && t.st.leases == s.st.leases && t.st.processing == s.st.processing
    ensures Timely(cfg, t)
  {
    if 0 in s.workers { PcTimelyLater(cfg, s, t, s.workers[0]); }
    PlainTimely(cfg, s, t, 0);
  }

  lemma {:induction false} AlwaysTimely(cfg: Config, es: seq<Event>)
    ensures Inv(cfg, Run(cfg, INIT, es)) && Timely(cfg, Run(cfg, INIT, es))
  {
    Reachable(cfg, es);
    if es != [] {
      AlwaysTimely(cfg, es[..|es| - 1]);
      StepTimely(cfg, Run(cfg, INIT, es[..|es| - 1]), es[|es| - 1]);
    }
  }

  // ---------- results ----------

  /**
   * Whenever a scan is about to take a job out of processing, by the EXEC of a retry or by the
   * clean-up of a completed job, a full visibility timeout has passed since the job moved there,
   * unless some scan leased it from an older reading.
   */
  lemma NotBeforeTimeout(cfg: Config, es: seq<Event>, w: WorkerId)
    requires ScanTakes(PcOf(Run(cfg, INIT, es), w))
    ensures var s := Run(cfg, INIT, es); var job := PcJobs(PcOf(s, w))[0];
      job in s.movedAt && (job in s.early || s.movedAt[job] + cfg.visibility <= s.clock)
  {
    AlwaysTimely(cfg, es);
    TakenIsDue(cfg, Run(cfg, INIT, es), PcOf(Run(cfg, INIT, es), w));
  }

  lemma TakenIsDue(cfg: Config, s: Sys, pc: Pc)
    requires PcTimely(cfg, s, pc) && ScanTakes(pc)
    ensures var job := PcJobs(pc)[0]; job in s.movedAt && (job in s.early || s.movedAt[job] + cfg.visibility <= s.clock)
  {
    var job := PcJobs(pc)[0];
    if pc.Executing? { assert job in [pc.job] + pc.cont.rest; } else { assert job in pc.todo; }
  }

  /** A recovery scan's next command removes the first of these jobs from processing. */
  predicate ScanTakes(pc: Pc) {
    (pc.Executing? && pc.cont.Resume?) || (pc.Cleaning? && pc.todo != [])
  }

  /** A lease ends early exactly when its clock reading is older than the move. */
  lemma LeaseEarlyIff(cfg: Config, es: seq<Event>, job: Job)
    requires job in Run(cfg, INIT, es).st.leases
    ensures var s := Run(cfg, INIT, es);
      && job in s.movedAt && job in s.origin
      && (s.st.leases[job] < s.movedAt[job] + cfg.visibility <==> s.origin[job] < s.movedAt[job])
      && (s.origin[job] < s.movedAt[job] ==> job in s.early)
  {
    AlwaysTimely(cfg, es);
    assert LeaseTimely(cfg, Run(cfg, INIT, es), job);
  }

  /**
   * ... and then the job really can be recovered before its timeout: once the lease has ended, the
   * commands of one undisturbed scan take it out of processing, and nobody has acknowledged it.
   */
  lemma EarlyRecovery(cfg: Config, s: Sys, job: Job, w: WorkerId, stale: seq<Job>)
    requires Inv(cfg, s) && Timely(cfg, s) && cfg.visibility > 0.0
    requires job in s.st.processing && job in s.st.leases && s.origin[job] < s.movedAt[job]
    requires s.clock <= s.st.leases[job] && PcOf(s, w).Idle?
    requires IsStaleList(EnsureAll(cfg, s.st, s.st.leases[job], s.st.processing), s.st.leases[job], stale)
    ensures var a := s.(clock := s.st.leases[job]);
      var t := Run(cfg, s, [Tick(a.clock)] + ScanOf(cfg, a, w, stale));
      && t.st == Recovered(cfg, s.st, a.clock, stale, a.clock).st
      && t.clock == a.clock && t.movedAt == s.movedAt && t.acked == s.acked
      && job in s.movedAt && t.clock < s.movedAt[job] + cfg.visibility
      && job in stale && job !in t.st.processing
  {
    assert LeaseTimely(cfg, s, job);
    var tick := Tick(s.st.leases[job]);
    var a := Apply(cfg, s, tick);
    RunOne(cfg, s, tick);
    SoloScan(cfg, a, w, stale);
    Then(cfg, s, [tick], ScanOf(cfg, a, w, stale));
    ProcessingDistinct(cfg, s);
    RecoveryContract(cfg, a.st, a.clock, stale, a.clock);
    EnsureAllEffect(cfg, a.st, a.clock, a.st.processing);
  }

  const WITNESS := Job(0, "", 0, None)

  /**
   * A scan by worker 1 reads the clock at 0; worker 0 moves the job half a timeout later; the scan
   * lists the job, finds no lease and adds one counted from its old reading; worker 0 dies.
   */
  function EarlyRun(cfg: Config): seq<Event> {
    [Push([WITNESS]), Scan(1), Tick(cfg.visibility / 2.0), Reserve(0)] + [Go(1), Go(1), Go(1), Crash(0)]
  }

  lemma MovedLate(cfg: Config)
    requires cfg.visibility > 0.0
    ensures var half := cfg.visibility / 2.0;
      var s := Run(cfg, INIT, [Push([WITNESS]), Scan(1), Tick(half), Reserve(0)]);
      && s.st == EMPTY.(processing := [WITNESS], version := 1) && s.movedAt == map[WITNESS := half] && s.clock == half
      && s.acked == {} && s.origin == map[] && PcOf(s, 1) == Listing(0.0)
  {
    var half := cfg.visibility / 2.0;
    var s1 := DoPush(INIT, [WITNESS]);
    var s2 := At(s1, 1, Listing(0.0));
    var s3 := s2.(clock := half);
    var s4 := DoReserve(s3, 0);
    Traced(cfg, [INIT, s1, s2, s3, s4], [Push([WITNESS]), Scan(1), Tick(half), Reserve(0)]);
  }

  lemma LeasedEarly(cfg: Config, s: Sys)
    requires s.st == EMPTY.(processing := [WITNESS], version := 1) && PcOf(s, 1) == Listing(0.0) && s.origin == map[]
    ensures var t := Run(cfg, s, [Go(1), Go(1), Go(1), Crash(0)]);
      && t.st == s.st.(leases := map[WITNESS := cfg.visibility]) && t.origin == map[WITNESS := 0.0]
      && t.movedAt == s.movedAt && t.clock == s.clock && t.acked == s.acked && PcOf(t, 0).Idle?
  {
    var s1 := At(s, 1, Ensuring(0.0, [WITNESS]));
    var s2 := At(s1, 1, Adding(0.0, [WITNESS]));
    var s3 := DoAdd(cfg, s2, 1, 0.0, [WITNESS]);
    Traced(cfg, [s, s1, s2, s3, At(s3, 0, Idle)], [Go(1), Go(1), Go(1), Crash(0)]);
  }

  lemma RunStep(cfg: Config, s: Sys, e: Event, es: seq<Event>)
    ensures Run(cfg, s, [e] + es) == Run(cfg, Apply(cfg, s, e), es)
  {
    Then(cfg, s, [e], es);
    RunOne(cfg, s, e);
  }

  /** Such a state is reachable, whatever the timeout. */
  lemma EarlyLeaseReachable(cfg: Config)
    requires cfg.visibility > 0.0
    ensures var s := Run(cfg, INIT, EarlyRun(cfg)); var half := cfg.visibility / 2.0;
      && s.st == EMPTY.(processing := [WITNESS], version := 1, leases := map[WITNESS := cfg.visibility])
      && s.origin == map[WITNESS := 0.0] && s.movedAt == map[WITNESS := half]
      && s.clock == half && s.acked == {} && PcOf(s, 0).Idle?
  {
    var first := [Push([WITNESS]), Scan(1), Tick(cfg.visibility / 2.0), Reserve(0)];
    MovedLate(cfg);
    LeasedEarly(cfg, Run(cfg, INIT, first));
    RunConcat(cfg, INIT, first, [Go(1), Go(1), Go(1), Crash(0)]);
  }

  /**
   * The plain timing claim fails for every timeout: this run takes a job out of processing half a
   * timeout after its move, by a scan's own commands, and sends it on with one more attempt.
   */
  lemma EarlyRecoveryReachable(cfg: Config)
    requires cfg.visibility > 0.0
    ensures var a := Run(cfg, INIT, EarlyRun(cfg)).(clock := cfg.visibility);
      var t := Run(cfg, INIT, EarlyRun(cfg) + ([Tick(cfg.visibility)] + ScanOf(cfg, a, 0, [WITNESS])));
      && t.movedAt == map[WITNESS := cfg.visibility / 2.0] && t.clock == cfg.visibility < t.movedAt[WITNESS] + cfg.visibility
      && t.acked == {} && t.st.processing == []
      && t.st.pending + t.st.dead == [Retried(WITNESS, STALE_REASON, cfg.visibility)]
  {
    EarlyLeaseReachable(cfg);
    AlwaysTimely(cfg, EarlyRun(cfg));
    var s := Run(cfg, INIT, EarlyRun(cfg));
    WitnessStale(cfg, s.st);
    EarlyRecovery(cfg, s, WITNESS, 0, [WITNESS]);
    Then(cfg, INIT, EarlyRun(cfg), [Tick(cfg.visibility)] + ScanOf(cfg, s.(clock := cfg.visibility), 0, [WITNESS]));
  }

  /** One scan of the early lease sends the job on. */
  lemma WitnessStale(cfg: Config, st: Store)
    requires cfg.visibility > 0.0
    requires st == EMPTY.(processing := [WITNESS], version := 1, leases := map[WITNESS := cfg.visibility])
    ensures var now := cfg.visibility;
      && IsStaleList(EnsureAll(cfg, st, now, st.processing), now, [WITNESS])
      && var t := Recovered(cfg, st, now, [WITNESS], now).st;
         t.processing == [] && t.pending + t.dead == [Retried(WITNESS, STALE_REASON, now)]
  {
    var now := cfg.visibility;
    assert EnsureAll(cfg, st, now, [WITNESS]) == st by { assert [WITNESS][1..] == []; }
    RecoveryContract(cfg, st, now, [WITNESS], now);
    SuccessorsOne(cfg, st, WITNESS, now, false);
    SuccessorsOne(cfg, st, WITNESS, now, true);
  }
}
