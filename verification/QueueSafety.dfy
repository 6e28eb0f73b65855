/** The invariant holds in every reachable state, and what it means for whole runs. */
module QueueSafety {
  import opened Wrappers
  import opened QueueStore
  import opened QueueProtocol
  import opened QueueInvariant

  // ---------- every step keeps the invariant ----------

  lemma PcStable(s: Sys, t: Sys, pc: Pc)
    requires PcOk(s, pc) && Evolves(s, t)
    ensures PcOk(t, pc)
  {
    assert forall j :: j in PcJobs(pc) ==> Held(t, j);
    match pc
    case Missing(job, _) => assert job in PcJobs(pc);
    case _ =>
  }

  /** One worker moves to `pc`; everything else only evolves. */
  lemma Assemble(cfg: Config, s: Sys, t: Sys, w: WorkerId, pc: Pc)
    requires Inv(cfg, s) && Core(cfg, t) && Evolves(s, t)
    requires t.workers == s.workers || t.workers == s.workers[w := pc]
    requires PcOk(t, pc)
    requires forall j :: j in t.st.leases ==> j in s.st.leases || Held(t, j)
    requires forall j :: j in t.movedAt ==> j in s.movedAt || Held(t, j)
    ensures Inv(cfg, t)
  {
    forall v | v in t.workers
      ensures PcOk(t, t.workers[v])
    {
      if v in s.workers { PcStable(s, t, s.workers[v]); }
    }
  }

  lemma IdleOk(s: Sys)
    ensures PcOk(s, Idle)
  {
  }

  lemma PcNow(cfg: Config, s: Sys, w: WorkerId)
    requires Inv(cfg, s)
    ensures PcOk(s, PcOf(s, w))
  {
    IdleOk(s);
  }

  /** The environment's own events. */
  lemma EnvironmentStep(cfg: Config, s: Sys, e: Event)
    requires Inv(cfg, s) && (e.Tick? || e.Push? || e.Expire? || e.Crash?)
    ensures Inv(cfg, Apply(cfg, s, e))
    ensures Evolves(s, Apply(cfg, s, e))
  {
    match e
    case Push(jobs) => if NewJobs(s, jobs) { PushStep(cfg, s, jobs); } else { SameLists(cfg, s, s); }
    case Crash(w) => PointerStep(cfg, s, Apply(cfg, s, e), w);
    case Tick(_) => ClockStep(cfg, s, Apply(cfg, s, e));
    case Expire(_) => ClockStep(cfg, s, Apply(cfg, s, e));
  }

  lemma PushStep(cfg: Config, s: Sys, jobs: seq<Job>)
    requires Inv(cfg, s) && NewJobs(s, jobs)
    ensures Inv(cfg, DoPush(s, jobs)) && Evolves(s, DoPush(s, jobs))
  {
    PushCore(cfg, s, jobs);
    IdleOk(DoPush(s, jobs));
    Assemble(cfg, s, DoPush(s, jobs), 0, Idle);
  }

  lemma ClockStep(cfg: Config, s: Sys, t: Sys)
    requires Inv(cfg, s)
    requires t == s.(clock := t.clock, st := s.st.(completed := t.st.completed)) && t.st.completed <= s.st.completed
    ensures Inv(cfg, t) && Evolves(s, t)
  {
    SameLists(cfg, s, t);
    IdleOk(t);
    Assemble(cfg, s, t, 0, Idle);
  }

  lemma ReserveStep(cfg: Config, s: Sys, w: WorkerId)
    requires Inv(cfg, s) && PcOf(s, w).Idle? && s.st.pending != []
    ensures Inv(cfg, DoReserve(s, w))
    ensures Evolves(s, DoReserve(s, w))
  {
    var t := DoReserve(s, w);
    var job := s.st.pending[0];
    MoveCore(cfg, s, w);
    MoveMembers(cfg, s, w);
    assert Held(t, job);
    Assemble(cfg, s, t, w, Reserved(job));
  }

  lemma AcknowledgeStep(cfg: Config, s: Sys, w: WorkerId, replyLost: bool)
    requires Inv(cfg, s) && (PcOf(s, w).Leased? || PcOf(s, w).Running?)
    ensures Inv(cfg, Apply(cfg, s, Acknowledge(w, replyLost)))
    ensures Evolves(s, Apply(cfg, s, Acknowledge(w, replyLost)))
  {
    PcNow(cfg, s, w);
    var t := Apply(cfg, s, Acknowledge(w, replyLost));
    var job := PcOf(s, w).job;
    assert job in PcJobs(PcOf(s, w));
    AcknowledgedPc(cfg, s, w, replyLost);
    DropCore(cfg, s, t, job);
    assert Held(t, job);
    Assemble(cfg, s, t, w, PcOf(t, w));
  }

  lemma AcknowledgedPc(cfg: Config, s: Sys, w: WorkerId, replyLost: bool)
    requires PcOf(s, w).Leased? || PcOf(s, w).Running?
    ensures var t := Apply(cfg, s, Acknowledge(w, replyLost)); var job := PcOf(s, w).job;
      && t.st == Ack(s.st, job) && t.acked == s.acked + {job.id}
      && t == s.(st := t.st, acked := t.acked, workers := s.workers[w := PcOf(t, w)])
      && (PcOf(t, w).Idle? || (PcOf(t, w).Watching? && PcOf(t, w).job == job
                               && PcOf(t, w).cont.Finish? && Successor(job, PcOf(t, w).next)))
  {
  }

  lemma ExecStep(cfg: Config, s: Sys, w: WorkerId)
    requires Inv(cfg, s) && PcOf(s, w).Executing?
    ensures Inv(cfg, Apply(cfg, s, Go(w)))
    ensures Evolves(s, Apply(cfg, s, Go(w)))
  {
    PcNow(cfg, s, w);
    var pc := PcOf(s, w);
    var t := Apply(cfg, s, Go(w));
    if pc.seen != s.st.version {
      PointerStep(cfg, s, t, w);
    } else {
      RequeueStep(cfg, s, t, w);
    }
  }

  lemma RequeueStep(cfg: Config, s: Sys, t: Sys, w: WorkerId)
    requires Inv(cfg, s) && PcOf(s, w).Executing? && PcOk(s, PcOf(s, w)) && PcOf(s, w).seen == s.st.version
    requires var pc := PcOf(s, w);
      t == At(s, w, Continue(pc.cont)).(
        st := Requeue(cfg, s.st, pc.job, pc.next),
        pushed := if pc.next.attempts <= cfg.maxRetries then s.pushed + [pc.next] else s.pushed)
    ensures Inv(cfg, t) && Evolves(s, t)
  {
    var pc := PcOf(s, w);
    var back := Continue(pc.cont);
    assert forall j :: j in PcJobs(back) ==> j in PcJobs(pc);
    RequeueCore(cfg, s, t, pc.job, pc.next);
    assert PcOk(t, back);
    Assemble(cfg, s, t, w, back);
  }

  lemma CleanStep(cfg: Config, s: Sys, w: WorkerId)
    requires Inv(cfg, s) && PcOf(s, w).Cleaning?
    ensures Inv(cfg, Apply(cfg, s, Go(w)))
    ensures Evolves(s, Apply(cfg, s, Go(w)))
  {
    PcNow(cfg, s, w);
    var pc := PcOf(s, w);
    CleanedStep(cfg, s, Apply(cfg, s, Go(w)), w, pc.todo[0], Sweeping(pc.now, pc.todo[1..]));
  }

  lemma CleanedStep(cfg: Config, s: Sys, t: Sys, w: WorkerId, job: Job, rest: Pc)
    requires Inv(cfg, s) && PcOk(s, PcOf(s, w)) && job in PcJobs(PcOf(s, w)) && job.id in s.acked
    requires rest.Sweeping? && forall j :: j in rest.todo ==> j in PcJobs(PcOf(s, w))
    requires t == At(s, w, rest).(st := Drop(s.st, job))
    ensures Inv(cfg, t) && Evolves(s, t)
  {
    DropCore(cfg, s, t, job);
    assert PcOk(t, rest);
    Assemble(cfg, s, t, w, rest);
  }

  /** The commands that touch no list: program counters and leases only. */
  lemma QuietLists(cfg: Config, s: Sys, w: WorkerId)
    requires !PcOf(s, w).Executing? && !PcOf(s, w).Cleaning?
    ensures var t := Apply(cfg, s, Go(w));
      && t == s.(st := s.st.(leases := t.st.leases), workers := t.workers, origin := t.origin, early := t.early)
      && (t.workers == s.workers || t.workers == s.workers[w := PcOf(t, w)])
      && (forall j :: j in t.st.leases ==> j in s.st.leases || j in PcJobs(PcOf(s, w)))
  {
    match PcOf(s, w)
    case Stamped(job, _) => assert job in PcJobs(PcOf(s, w));
    case Adding(_, todo) => if todo != [] { assert todo[0] in PcJobs(PcOf(s, w)); }
    case _ =>
  }

  lemma GoFrame(cfg: Config, s: Sys, w: WorkerId)
    ensures DoGo(cfg, s, w).workers == s.workers
         || DoGo(cfg, s, w).workers == s.workers[w := PcOf(DoGo(cfg, s, w), w)]
  {
    if !PcOf(s, w).Executing? && !PcOf(s, w).Cleaning? {
      assert DoGo(cfg, s, w) == Apply(cfg, s, Go(w));
      QuietLists(cfg, s, w);
    }
  }

  lemma QuietJobs(cfg: Config, s: Sys, w: WorkerId)
    requires !PcOf(s, w).Executing? && !PcOf(s, w).Cleaning?
    ensures var t := Apply(cfg, s, Go(w)); forall j :: j in PcJobs(PcOf(t, w)) ==> j in PcJobs(PcOf(s, w)) || j in s.st.processing
  {
    match PcOf(s, w)
    case Missing(_, cont) =>
      assert PcJobs(Continue(cont)) == ContJobs(cont);
    case _ =>
  }

  lemma QuietPc(cfg: Config, s: Sys, w: WorkerId)
    requires !PcOf(s, w).Executing? && !PcOf(s, w).Cleaning?
    requires PcOk(s, PcOf(s, w)) && s.st.completed <= s.acked
    requires forall j :: j in s.st.processing ==> Held(s, j)
    ensures PcOk(s, PcOf(Apply(cfg, s, Go(w)), w))
  {
    QuietJobs(cfg, s, w);
    match PcOf(s, w)
    case Looking(job, next, seen, _) => assert job in PcJobs(PcOf(s, w)) && Held(s, job);
    case _ =>
  }

  lemma QuietStep(cfg: Config, s: Sys, w: WorkerId)
    requires Inv(cfg, s) && !PcOf(s, w).Executing? && !PcOf(s, w).Cleaning?
    ensures Inv(cfg, Apply(cfg, s, Go(w)))
    ensures Evolves(s, Apply(cfg, s, Go(w)))
  {
    PcNow(cfg, s, w);
    ListedHeld(cfg, s);
    QuietPc(cfg, s, w);
    QuietLists(cfg, s, w);
    QuietInv(cfg, s, Apply(cfg, s, Go(w)), w);
  }

  lemma QuietInv(cfg: Config, s: Sys, t: Sys, w: WorkerId)
    requires Inv(cfg, s) && PcOk(s, PcOf(s, w)) && PcOk(s, PcOf(t, w))
    requires t == s.(st := s.st.(leases := t.st.leases), workers := t.workers, origin := t.origin, early := t.early)
    requires t.workers == s.workers || t.workers == s.workers[w := PcOf(t, w)]
    requires forall j :: j in t.st.leases ==> j in s.st.leases || j in PcJobs(PcOf(s, w))
    ensures Inv(cfg, t)
    ensures Evolves(s, t)
  {
    SameLists(cfg, s, t);
    PcStable(s, t, PcOf(t, w));
    Assemble(cfg, s, t, w, PcOf(t, w));
  }

  lemma ListedHeld(cfg: Config, s: Sys)
    requires Core(cfg, s)
    ensures forall j :: j in s.st.processing ==> Held(s, j)
  {
    forall j | j in s.st.processing
      ensures Held(s, j)
    {
      TotalMember(s.st.processing, j);
    }
  }

  lemma StepInv(cfg: Config, s: Sys, e: Event)
    requires Inv(cfg, s)
    ensures Inv(cfg, Apply(cfg, s, e))
    ensures Evolves(s, Apply(cfg, s, e))
  {
    var t := Apply(cfg, s, e);
    match e {
      case Reserve(w) => if PcOf(s, w).Idle? && s.st.pending != [] { ReserveStep(cfg, s, w); }
      case Acknowledge(w, replyLost) =>
        if PcOf(s, w).Leased? || PcOf(s, w).Running? { AcknowledgeStep(cfg, s, w, replyLost); }
      case Go(w) =>
        if PcOf(s, w).Executing? { ExecStep(cfg, s, w); }
        else if PcOf(s, w).Cleaning? { CleanStep(cfg, s, w); }
        else { QuietStep(cfg, s, w); }
      case Scan(w) => PointerStep(cfg, s, t, w);
      case StaleScan(w, stale) => PointerStep(cfg, s, t, w);
      case Fail(w, reason) => PointerStep(cfg, s, t, w);
      case _ => EnvironmentStep(cfg, s, e);
    }
  }

  lemma PointerStep(cfg: Config, s: Sys, t: Sys, w: WorkerId)
    requires Inv(cfg, s)
    requires t == s || t == s.(workers := s.workers[w := PcOf(t, w)])
    requires PcOf(t, w) == PcOf(s, w) || PcOf(t, w).Listing? || PcOf(t, w).Idle?
          || (PcOf(t, w).Sweeping? && forall j :: j in PcOf(t, w).todo ==> j in s.st.leases)
          || (PcOf(s, w).Executing? && PcOf(t, w) == Watching(PcOf(s, w).job, PcOf(s, w).next, PcOf(s, w).cont))
          || (PcOf(s, w).Running? && PcOf(t, w).Watching? && PcOf(t, w).cont.Finish?
              && PcOf(t, w).job == PcOf(s, w).job && Successor(PcOf(t, w).job, PcOf(t, w).next))
    ensures Inv(cfg, t)
    ensures Evolves(s, t)
  {
    PcNow(cfg, s, w);
    SameLists(cfg, s, t);
    assert PcOk(t, PcOf(t, w));
    Assemble(cfg, s, t, w, PcOf(t, w));
  }

  lemma {:induction false} Reachable(cfg: Config, es: seq<Event>)
    ensures Inv(cfg, Run(cfg, INIT, es))
  {
    if es == [] {
      assert forall id: JobId :: Copies(EMPTY, id) == 0;
    } else {
      Reachable(cfg, es[..|es| - 1]);
      StepInv(cfg, Run(cfg, INIT, es[..|es| - 1]), es[|es| - 1]);
    }
  }

  // ---------- safety of all runs ----------

  /**
   * In every interleaving of workers, crashes, scans and late acknowledgements an enqueued job
   * has exactly one copy until it is acknowledged, never two, and nothing appears from nowhere.
   */
  lemma NoLossNoDuplication(cfg: Config, es: seq<Event>, id: JobId)
    ensures var s := Run(cfg, INIT, es);
      && Copies(s.st, id) <= 1
      && (id in s.enqueued && id !in s.acked ==> Copies(s.st, id) == 1)
      && (Copies(s.st, id) == 1 ==> id in s.enqueued)
  {
    Reachable(cfg, es);
  }

  /** A job is reserved at most maxRetries + 1 times, and its copy always says how often. */
  lemma BoundedDelivery(cfg: Config, es: seq<Event>)
    ensures var s := Run(cfg, INIT, es);
      && (forall id: JobId :: Reservations(s, id) <= cfg.maxRetries + 1)
      && (forall j :: j in s.st.pending ==> Reservations(s, j.id) == j.attempts <= cfg.maxRetries)
      && (forall j :: j in s.st.processing ==> Reservations(s, j.id) - 1 == j.attempts <= cfg.maxRetries)
      && (forall j :: j in s.st.dead ==> Reservations(s, j.id) == j.attempts == cfg.maxRetries + 1)
  {
    Reachable(cfg, es);
  }

  /** First in, first out, across single and bulk enqueues and retries. */
  lemma Fifo(cfg: Config, es: seq<Event>)
    ensures var s := Run(cfg, INIT, es); s.popped + s.st.pending == s.pushed
  {
    Reachable(cfg, es);
  }

  /** An acknowledgement leaves a copy behind exactly when it comes too late. */
  lemma LateAcknowledge(cfg: Config, es: seq<Event>, w: WorkerId)
    requires var pc := PcOf(Run(cfg, INIT, es), w); pc.Leased? || pc.Running?
    ensures var s := Run(cfg, INIT, es); var job := PcOf(s, w).job;
      Copies(Ack(s.st, job), job.id) == 0 <==> job in s.st.processing || Copies(s.st, job.id) == 0
  {
    Reachable(cfg, es);
    var s := Run(cfg, INIT, es);
    var job := PcOf(s, w).job;
    DropTotals(s.st, job);
    assert Copies(Ack(s.st, job), job.id) == Copies(Drop(s.st, job), job.id);
  }

  // ---------- termination ----------

  function PendingWork(cfg: Config): Job -> nat {
    (j: Job) => if j.attempts <= cfg.maxRetries then 2 * (cfg.maxRetries + 1 - j.attempts) else 0
  }

  function ProcessingWork(cfg: Config): Job -> nat {
    (j: Job) => if j.attempts <= cfg.maxRetries then 2 * (cfg.maxRetries + 1 - j.attempts) - 1 else 0
  }

  /** How many moves the jobs still on the pending and processing lists can make. */
  function Potential(cfg: Config, st: Store): nat {
    Total(st.pending, PendingWork(cfg)) + Total(st.processing, ProcessingWork(cfg))
  }

  lemma {:induction false} NewWork(cfg: Config, jobs: seq<Job>)
    requires forall i :: 0 <= i < |jobs| ==> jobs[i].attempts == 0
    ensures Total(jobs, PendingWork(cfg)) == WorkPerJob(cfg) * |jobs|
  {
    if jobs != [] {
      NewWork(cfg, jobs[1..]);
      assert PendingWork(cfg)(jobs[0]) == WorkPerJob(cfg);
      Distribute(WorkPerJob(cfg), 1, |jobs[1..]|);
    }
  }

  /** The moves a new job has before it: a reservation and a retry for every allowed attempt. */
  function WorkPerJob(cfg: Config): nat {
    2 * (cfg.maxRetries + 1)
  }

  lemma {:induction false} NewIds(jobs: seq<Job>)
    requires forall i, j :: 0 <= i < j < |jobs| ==> jobs[i].id != jobs[j].id
    ensures |Ids(jobs)| == |jobs|
  {
    if jobs != [] {
      NewIds(jobs[1..]);
      assert Ids(jobs) == {jobs[0].id} + Ids(jobs[1..]);
    }
  }

  /**
   * The version counts exactly the reservations and the acknowledgements, clean-ups and retries
   * that move a job; every such move uses up at least one unit of work.
   */
  lemma WorkFalls(cfg: Config, s: Sys, e: Event)
    requires Inv(cfg, s) && !e.Push?
    ensures Worked(cfg, s.st, Apply(cfg, s, e).st)
  {
    match e {
      case Reserve(w) => if PcOf(s, w).Idle? && s.st.pending != [] { ReserveWork(cfg, s); }
      case Acknowledge(w, replyLost) =>
        if PcOf(s, w).Leased? || PcOf(s, w).Running? {
          AcknowledgedPc(cfg, s, w, replyLost);
          DropPotential(cfg, s, PcOf(s, w).job);
        }
      case Go(w) =>
        PcNow(cfg, s, w);
        if PcOf(s, w).Executing? { ExecWork(cfg, s, w); }
        else if PcOf(s, w).Cleaning? { DropPotential(cfg, s, PcOf(s, w).todo[0]); }
        else { QuietLists(cfg, s, w); }
      case _ =>
    }
  }

  /** Version and processing list change together, and each change costs a unit of work. */
  ghost predicate Worked(cfg: Config, st: Store, st': Store) {
    && st.version <= st'.version
    && Potential(cfg, st') + (st'.version - st.version) <= Potential(cfg, st)
    && (st'.version > st.version <==> st'.processing != st.processing)
  }

  lemma ReserveWork(cfg: Config, s: Sys)
    requires Core(cfg, s) && s.st.pending != []
    ensures Worked(cfg, s.st, Move(s.st))
    ensures Potential(cfg, Move(s.st)) == Potential(cfg, s.st) - 1
  {
    var job := s.st.pending[0];
    TotalConcat(s.st.processing, [job], ProcessingWork(cfg));
    TotalOne(job, ProcessingWork(cfg));
    assert job in s.st.pending;
  }

  lemma ExecWork(cfg: Config, s: Sys, w: WorkerId)
    requires Inv(cfg, s) && PcOf(s, w).Executing? && PcOk(s, PcOf(s, w))
    ensures Worked(cfg, s.st, Apply(cfg, s, Go(w)).st)
  {
    var pc := PcOf(s, w);
    if pc.seen == s.st.version {
      RequeueWork(cfg, s, pc.job, pc.next);
    }
  }

  lemma RequeueWork(cfg: Config, s: Sys, job: Job, next: Job)
    requires Core(cfg, s) && job in s.st.processing && Successor(job, next)
    ensures Worked(cfg, s.st, Requeue(cfg, s.st, job, next))
    ensures Potential(cfg, Requeue(cfg, s.st, job, next)) == Potential(cfg, s.st) - 1
  {
    DropPotential(cfg, s, job);
    var d := Drop(s.st, job);
    TotalConcat(d.pending, [next], PendingWork(cfg));
    TotalOne(next, PendingWork(cfg));
    RequeueTotals(cfg, s.st, job, next);
    assert OnList(s.st, job);
  }

  /** A removal that moves a job uses up all the work the job had left. */
  lemma DropPotential(cfg: Config, s: Sys, job: Job)
    requires Core(cfg, s)
    ensures var d := Drop(s.st, job);
      && Potential(cfg, d) + (d.version - s.st.version) <= Potential(cfg, s.st)
      && (job in s.st.processing ==> Potential(cfg, d) + ProcessingWork(cfg)(job) == Potential(cfg, s.st))
      && (d.processing != s.st.processing <==> job in s.st.processing)
  {
    if job in s.st.processing {
      TotalWithout(s.st.processing, job, ProcessingWork(cfg));
      DropTotals(s.st, job);
      assert OnList(s.st, job);
      assert !OnList(Drop(s.st, job), job);
    } else {
      WithoutAbsent(s.st.processing, job);
    }
  }

  /**
   * Termination over whole runs: the moves made so far and the moves still possible never exceed
   * 2 * (maxRetries + 1) for every job ever enqueued.
   */
  lemma {:induction false} MovesBounded(cfg: Config, es: seq<Event>)
    ensures var s := Run(cfg, INIT, es);
      s.st.version + Potential(cfg, s.st) <= WorkPerJob(cfg) * |s.enqueued|
  {
    if es != [] {
      var s := Run(cfg, INIT, es[..|es| - 1]);
      var e := es[|es| - 1];
      MovesBounded(cfg, es[..|es| - 1]);
      Reachable(cfg, es[..|es| - 1]);
      if e.Push? {
        if NewJobs(s, e.jobs) { PushWork(cfg, s, e.jobs); }
      } else {
        WorkFalls(cfg, s, e);
        SameIds(cfg, s, e);
      }
    }
  }

  lemma SameIds(cfg: Config, s: Sys, e: Event)
    requires !e.Push?
    ensures Apply(cfg, s, e).enqueued == s.enqueued
  {
  }

  lemma PushWork(cfg: Config, s: Sys, jobs: seq<Job>)
    requires NewJobs(s, jobs)
    ensures Potential(cfg, DoPush(s, jobs).st) == Potential(cfg, s.st) + WorkPerJob(cfg) * |jobs|
    ensures WorkPerJob(cfg) * |DoPush(s, jobs).enqueued| == WorkPerJob(cfg) * |s.enqueued| + WorkPerJob(cfg) * |jobs|
  {
    TotalConcat(s.st.pending, jobs, PendingWork(cfg));
    NewWork(cfg, jobs);
    PushIds(s, jobs);
    Distribute(WorkPerJob(cfg), |s.enqueued|, |jobs|);
  }

  lemma PushIds(s: Sys, jobs: seq<Job>)
    requires NewJobs(s, jobs)
    ensures |DoPush(s, jobs).enqueued| == |s.enqueued| + |jobs|
  {
    NewIds(jobs);
    assert s.enqueued !! Ids(jobs);
  }

  lemma Distribute(a: nat, b: nat, c: nat)
    ensures a * (b + c) == a * b + a * c
  {
  }

  // ---------- the WATCH loop ends ----------

  /** w's EXEC is refused: the processing list has changed since its WATCH. */
  predicate ExecFails(s: Sys, e: Event, w: WorkerId) {
    e == Go(w) && PcOf(s, w).Executing? && PcOf(s, w).seen != s.st.version
  }

  ghost function FailedExecs(cfg: Config, es: seq<Event>, w: WorkerId): nat {
    if es == [] then 0
    else
      FailedExecs(cfg, es[..|es| - 1], w)
      + if ExecFails(Run(cfg, INIT, es[..|es| - 1]), es[|es| - 1], w) then 1 else 0
  }

  /** The version w last saw, inside an attempt; the current one otherwise. */
  function LastSeen(s: Sys, w: WorkerId): nat {
    match PcOf(s, w)
    case Looking(_, _, seen, _) => seen
    case Executing(_, _, seen, _) => seen
    case _ => s.st.version
  }

  /** A worker comes to an attempt from a WATCH, which sees the current version. */
  lemma AttemptFrom(cfg: Config, s: Sys, e: Event, w: WorkerId)
    ensures var pc := PcOf(Apply(cfg, s, e), w);
      pc.Looking? || pc.Executing? ==> pc == PcOf(s, w) || pc.seen == LastSeen(s, w)
    ensures ExecFails(s, e, w) ==> PcOf(Apply(cfg, s, e), w).Watching? && Apply(cfg, s, e).st == s.st
  {
    match e
    case Go(v) => if v != w { GoFrame(cfg, s, v); } else { AttemptGo(cfg, s, w); }
    case _ =>
  }

  lemma AttemptGo(cfg: Config, s: Sys, w: WorkerId)
    ensures var pc := PcOf(DoGo(cfg, s, w), w);
      pc.Looking? || pc.Executing? ==> pc == PcOf(s, w) || pc.seen == LastSeen(s, w)
    ensures ExecFails(s, Go(w), w) ==> PcOf(DoGo(cfg, s, w), w).Watching? && DoGo(cfg, s, w).st == s.st
  {
    match PcOf(s, w)
    case Missing(_, cont) => assert PcOf(DoGo(cfg, s, w), w) == Continue(cont);
    case Executing(_, _, _, cont) =>
      assert PcOf(DoGo(cfg, s, w), w) == Continue(cont) || PcOf(DoGo(cfg, s, w), w).Watching?;
    case _ =>
  }

  lemma LastSeenGrows(cfg: Config, s: Sys, e: Event, w: WorkerId)
    requires Inv(cfg, s)
    ensures LastSeen(Apply(cfg, s, e), w) >= LastSeen(s, w) + if ExecFails(s, e, w) then 1 else 0
  {
    StepInv(cfg, s, e);
    PcNow(cfg, s, w);
    AttemptFrom(cfg, s, e, w);
  }

  lemma {:induction false} FailuresSeen(cfg: Config, es: seq<Event>, w: WorkerId)
    ensures FailedExecs(cfg, es, w) <= LastSeen(Run(cfg, INIT, es), w)
  {
    if es != [] {
      FailuresSeen(cfg, es[..|es| - 1], w);
      Reachable(cfg, es[..|es| - 1]);
      LastSeenGrows(cfg, Run(cfg, INIT, es[..|es| - 1]), es[|es| - 1], w);
    }
  }

  /**
   * The WATCH loop ends: over every run a worker's refused EXECs are at most as many as the moves
   * made, and so at most 2 * (maxRetries + 1) for every job ever enqueued.
   */
  lemma FailedExecsBounded(cfg: Config, es: seq<Event>, w: WorkerId)
    ensures var s := Run(cfg, INIT, es);
      FailedExecs(cfg, es, w) <= s.st.version <= WorkPerJob(cfg) * |s.enqueued|
  {
    FailuresSeen(cfg, es, w);
    MovesBounded(cfg, es);
    Reachable(cfg, es);
    PcNow(cfg, Run(cfg, INIT, es), w);
  }
}
