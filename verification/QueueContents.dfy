/**
 * What becomes of a job's contents and of a completed job over whole runs, and the turn of an
 * undisturbed worker, command by command.
 */
module QueueContents {
  import opened Wrappers
  import opened QueueStore
  import opened QueueProtocol
  import opened QueueInvariant
  import opened QueueSafety
  import opened QueueSolo
  import opened QueueTiming
  import opened QueueOrphans
  import opened QueueTurn

  // ---------- a job keeps what it was enqueued with ----------

  /** Some push was of a new job with this id and these contents. */
  ghost predicate Enqueued(pushed: seq<Job>, j: Job) {
    exists i :: 0 <= i < |pushed| && pushed[i].attempts == 0 && pushed[i].id == j.id && pushed[i].body == j.body
  }

  /** A new job has no failure, a retried one the last, cut to 200 characters. */
  predicate FailureOk(j: Job) {
    (j.attempts == 0 <==> j.failure == None) && (j.failure.Some? ==> |j.failure.value.reason| <= 200)
  }

  ghost predicate Contents(s: Sys) {
    && (forall j :: OnList(s.st, j) ==> Enqueued(s.pushed, j) && FailureOk(j))
    && PushedIds(s.pushed, s.enqueued)
  }

  /** An element of a list after a step was there before, is new, or replaces one that was in processing. */
  lemma ListedFrom(cfg: Config, s: Sys, e: Event, j: Job)
    requires Inv(cfg, s) && OnList(Apply(cfg, s, e).st, j)
    ensures || OnList(s.st, j)
            || (e.Push? && NewJobs(s, e.jobs) && j in e.jobs)
            || exists job :: job in s.st.processing && Successor(job, j)
  {
    match e
    case Acknowledge(w, replyLost) =>
      if PcOf(s, w).Leased? || PcOf(s, w).Running? {
        AcknowledgedPc(cfg, s, w, replyLost);
        DropTotals(s.st, PcOf(s, w).job);
        assert OnList(Drop(s.st, PcOf(s, w).job), j);
      }
    case Go(w) => GoListedFrom(cfg, s, w, j);
    case _ =>
  }

  lemma GoListedFrom(cfg: Config, s: Sys, w: WorkerId, j: Job)
    requires Inv(cfg, s) && OnList(Apply(cfg, s, Go(w)).st, j)
    ensures OnList(s.st, j) || exists job :: job in s.st.processing && Successor(job, j)
  {
    PcNow(cfg, s, w);
    var pc := PcOf(s, w);
    if pc.Executing? {
      if pc.seen == s.st.version {
        assert Apply(cfg, s, Go(w)).st == Requeue(cfg, s.st, pc.job, pc.next);
        RequeueTotals(cfg, s.st, pc.job, pc.next);
      }
    } else if pc.Cleaning? {
      DropTotals(s.st, pc.todo[0]);
    } else {
      QuietLists(cfg, s, w);
    }
  }

  /** The push log grows by new jobs of new ids, or by one successor of a job in processing. */
  lemma PushedFrom(cfg: Config, s: Sys, e: Event)
    requires Inv(cfg, s)
    ensures var t := Apply(cfg, s, e);
      || t.pushed == s.pushed
      || (e.Push? && NewJobs(s, e.jobs) && t.pushed == s.pushed + e.jobs && t.enqueued == s.enqueued + Ids(e.jobs))
      || (exists job, next :: job in s.st.processing && Successor(job, next) && t.pushed == s.pushed + [next])
  {
    match e
    case Go(w) =>
      PcNow(cfg, s, w);
      if PcOf(s, w).Executing? {
        var pc := PcOf(s, w);
        assert Successor(pc.job, pc.next);
      } else if !PcOf(s, w).Cleaning? {
        QuietLists(cfg, s, w);
      }
    case _ =>
  }

  lemma StillEnqueued(pushed: seq<Job>, more: seq<Job>, j: Job)
    requires Enqueued(pushed, j)
    ensures Enqueued(pushed + more, j)
  {
    var i :| 0 <= i < |pushed| && pushed[i].attempts == 0 && pushed[i].id == j.id && pushed[i].body == j.body;
    assert (pushed + more)[i] == pushed[i];
  }

  lemma NewEnqueued(pushed: seq<Job>, more: seq<Job>, j: Job)
    requires j in more && j.attempts == 0
    ensures Enqueued(pushed + more, j)
  {
    var i :| 0 <= i < |more| && more[i] == j;
    assert (pushed + more)[|pushed| + i] == j;
  }

  lemma PushedGrows(cfg: Config, s: Sys, e: Event, j: Job)
    requires Inv(cfg, s) && Enqueued(s.pushed, j)
    ensures Enqueued(Apply(cfg, s, e).pushed, j)
  {
    PushedFrom(cfg, s, e);
    var t := Apply(cfg, s, e);
    if t.pushed != s.pushed {
      assert s.pushed <= t.pushed;
      assert t.pushed == s.pushed + t.pushed[|s.pushed|..];
      StillEnqueued(s.pushed, t.pushed[|s.pushed|..], j);
    }
  }

  lemma ContentsStep(cfg: Config, s: Sys, e: Event)
    requires Inv(cfg, s) && Contents(s)
    ensures Contents(Apply(cfg, s, e))
  {
    var t := Apply(cfg, s, e);
    forall j | OnList(t.st, j)
      ensures Enqueued(t.pushed, j) && FailureOk(j)
    {
      ListedFrom(cfg, s, e, j);
      if OnList(s.st, j) {
        PushedGrows(cfg, s, e, j);
      } else if e.Push? && NewJobs(s, e.jobs) && j in e.jobs {
        NewEnqueued(s.pushed, e.jobs, j);
      } else {
        var job :| job in s.st.processing && Successor(job, j);
        assert OnList(s.st, job);
        PushedGrows(cfg, s, e, job);
      }
    }
    PushedOnce(cfg, s, e);
  }

  /** New jobs are pushed once per id, and only ids ever enqueued. */
  ghost predicate PushedIds(pushed: seq<Job>, enqueued: set<JobId>) {
    && (forall i :: 0 <= i < |pushed| ==> pushed[i].id in enqueued)
    && (forall i, k :: 0 <= i < k < |pushed| && pushed[i].attempts == 0 && pushed[k].attempts == 0 ==>
          pushed[i].id != pushed[k].id)
  }

  lemma PushedMore(s: Sys, jobs: seq<Job>)
    requires PushedIds(s.pushed, s.enqueued) && NewJobs(s, jobs)
    ensures PushedIds(s.pushed + jobs, s.enqueued + Ids(jobs))
  {
    var p := s.pushed + jobs;
    forall i | 0 <= i < |p|
      ensures p[i].id in s.enqueued + Ids(jobs)
    {
      if i >= |s.pushed| { assert p[i] == jobs[i - |s.pushed|] && p[i] in jobs; }
    }
  }

  lemma SuccessorPushed(pushed: seq<Job>, enqueued: set<JobId>, next: Job)
    requires PushedIds(pushed, enqueued) && next.attempts > 0 && next.id in enqueued
    ensures PushedIds(pushed + [next], enqueued)
  {
  }

  lemma SameIdsPushed(pushed: seq<Job>, enqueued: set<JobId>, more: set<JobId>)
    requires PushedIds(pushed, enqueued) && enqueued <= more
    ensures PushedIds(pushed, more)
  {
  }

  lemma PushedOnce(cfg: Config, s: Sys, e: Event)
    requires Inv(cfg, s) && PushedIds(s.pushed, s.enqueued)
    ensures PushedIds(Apply(cfg, s, e).pushed, Apply(cfg, s, e).enqueued)
  {
    StepInv(cfg, s, e);
    PushedFrom(cfg, s, e);
    var t := Apply(cfg, s, e);
    SameIdsPushed(s.pushed, s.enqueued, t.enqueued);
    if e.Push? && NewJobs(s, e.jobs) {
      PushedMore(s, e.jobs);
    } else if t.pushed != s.pushed {
      var job, next :| job in s.st.processing && Successor(job, next) && t.pushed == s.pushed + [next];
      ListedHeld(cfg, s);
      assert Held(s, job);
      SuccessorPushed(s.pushed, t.enqueued, next);
    }
  }

  lemma {:induction false} AlwaysContents(cfg: Config, es: seq<Event>)
    ensures Inv(cfg, Run(cfg, INIT, es)) && Contents(Run(cfg, INIT, es))
  {
    Reachable(cfg, es);
    if es != [] {
      AlwaysContents(cfg, es[..|es| - 1]);
      ContentsStep(cfg, Run(cfg, INIT, es[..|es| - 1]), es[|es| - 1]);
    }
  }

  /**
   * However often a job is retried, recovered or dead-lettered, by whomever, it is the job that was
   * enqueued: exactly one new job of its id was ever pushed, and its contents are that job's.
   */
  lemma ContentsKept(cfg: Config, es: seq<Event>, j: Job)
    requires OnList(Run(cfg, INIT, es).st, j)
    ensures var pushed := Run(cfg, INIT, es).pushed;
      && Enqueued(pushed, j)
      && (forall i :: 0 <= i < |pushed| && pushed[i].attempts == 0 && pushed[i].id == j.id ==> pushed[i].body == j.body)
      && (forall i, k :: 0 <= i < k < |pushed| && pushed[i].attempts == 0 && pushed[k].attempts == 0 ==>
            pushed[i].id != pushed[k].id)
    ensures (j.attempts == 0 <==> j.failure == None) && (j.failure.Some? ==> |j.failure.value.reason| <= 200)
  {
    AlwaysContents(cfg, es);
    var pushed := Run(cfg, INIT, es).pushed;
    assert Enqueued(pushed, j) && FailureOk(j);
  }

  // ---------- a completed job is not processed again ----------

  ghost predicate NotRunning(s: Sys, id: JobId) {
    forall w :: w in s.workers && s.workers[w].Running? ==> s.workers[w].job.id != id
  }

  lemma CompletedStep(cfg: Config, s: Sys, e: Event, id: JobId)
    requires id in s.st.completed && NotRunning(s, id) && e != Expire(id)
    ensures id in Apply(cfg, s, e).st.completed && NotRunning(Apply(cfg, s, e), id)
  {
    var t := Apply(cfg, s, e);
    match e
    case Go(w) => CompletedGo(cfg, s, w, id);
    case _ =>
  }

  lemma CompletedGo(cfg: Config, s: Sys, w: WorkerId, id: JobId)
    requires id in s.st.completed && NotRunning(s, id)
    ensures id in DoGo(cfg, s, w).st.completed && NotRunning(DoGo(cfg, s, w), id)
  {
    GoFrame(cfg, s, w);
    RunningFrom(cfg, s, w);
    GoCompleted(cfg, s, w);
  }

  /** A command begins the processing of a job only if the job has no marker. */
  lemma RunningFrom(cfg: Config, s: Sys, w: WorkerId)
    ensures var pc := PcOf(DoGo(cfg, s, w), w);
      pc.Running? ==> pc == PcOf(s, w) || (PcOf(s, w) == Leased(pc.job) && pc.job.id !in s.st.completed)
  {
    match PcOf(s, w)
    case Missing(_, cont) => assert PcOf(DoGo(cfg, s, w), w) == Continue(cont);
    case Executing(_, _, _, cont) =>
      assert PcOf(DoGo(cfg, s, w), w) == Continue(cont) || PcOf(DoGo(cfg, s, w), w).Watching?;
    case _ =>
  }

  lemma GoCompleted(cfg: Config, s: Sys, w: WorkerId)
    ensures DoGo(cfg, s, w).st.completed == s.st.completed
  {
  }

  /**
   * From the moment a job is marked completed and nobody is processing it, until its marker
   * expires, no worker ever begins to process it, in any interleaving.
   */
  lemma {:induction false} CompletedNotProcessed(cfg: Config, s: Sys, es: seq<Event>, id: JobId)
    requires id in s.st.completed && NotRunning(s, id) && Expire(id) !in es
    ensures id in Run(cfg, s, es).st.completed && NotRunning(Run(cfg, s, es), id)
  {
    if es != [] {
      CompletedNotProcessed(cfg, s, es[..|es| - 1], id);
      CompletedStep(cfg, Run(cfg, s, es[..|es| - 1]), es[|es| - 1], id);
    }
  }

  /**
   * When the reply of an acknowledgement is lost the worker treats the job as failed; undisturbed, its
   * retry finds the job gone, and the queue is as if the reply had come.
   */
  lemma LostReplyHarmless(cfg: Config, s: Sys, w: WorkerId)
    requires Inv(cfg, s) && PcOf(s, w).Running?
    ensures var a := Apply(cfg, s, Acknowledge(w, true)); var t := Run(cfg, a, [Go(w), Go(w), Go(w)]);
      var b := Apply(cfg, s, Acknowledge(w, false));
      && PcOf(a, w).Watching? && PcOf(t, w).Idle? && t.st == b.st && t.acked == b.acked
  {
    var job := PcOf(s, w).job;
    var a := Apply(cfg, s, Acknowledge(w, true));
    DropTaken(cfg, s, job);
    ThreeCommands(cfg, a, w);
    SoloRetry(cfg, a, w);
    assert Unlease(a.st, job) == a.st;
  }

  // ---------- one turn of a worker nobody disturbs ----------

  lemma TwoCommands(cfg: Config, s: Sys, w: WorkerId)
    ensures Run(cfg, s, [Go(w), Go(w)]) == Apply(cfg, Apply(cfg, s, Go(w)), Go(w))
  {
    var s1 := Apply(cfg, s, Go(w));
    Traced(cfg, [s, s1, Apply(cfg, s1, Go(w))], [Go(w), Go(w)]);
  }

  /** The clock is read and the lease written. */
  lemma LeaseCommands(cfg: Config, s: Sys, w: WorkerId, job: Job)
    requires PcOf(s, w) == Reserved(job)
    ensures var t := Apply(cfg, Apply(cfg, s, Go(w)), Go(w));
      PcOf(t, w) == Leased(job) && t.clock == s.clock && t.st == Lease(s.st, job, s.clock + cfg.visibility)
  {
    var s1 := At(s, w, Stamped(job, s.clock));
    assert Apply(cfg, s, Go(w)) == s1 && PcOf(s1, w) == Stamped(job, s.clock);
    assert Apply(cfg, s1, Go(w)) == DoStamp(cfg, s1, w, job, s.clock);
  }

  lemma TurnLeases(cfg: Config, s: Sys, w: WorkerId, job: Job)
    requires PcOf(s, w) == Reserved(job)
    ensures var t := Run(cfg, s, [Go(w), Go(w)]);
      PcOf(t, w) == Leased(job) && t.clock == s.clock && t.st == Lease(s.st, job, s.clock + cfg.visibility)
  {
    TwoCommands(cfg, s, w);
    LeaseCommands(cfg, s, w, job);
  }

  /** The commands of one turn once the job has its lease. */
  function WorkEvents(s: Sys, w: WorkerId, failure: Option<string>): seq<Event>
    requires s.st.pending != []
  {
    if s.st.pending[0].id in s.st.completed then [Acknowledge(w, false)]
    else
      match failure
      case None => [Go(w), Acknowledge(w, false)]
      case Some(reason) => [Go(w), Fail(w, reason), Go(w), Go(w), Go(w)]
  }

  /** LMOVE, the clock, ZADD, and what follows from the work. */
  function TurnEvents(s: Sys, w: WorkerId, failure: Option<string>): seq<Event>
    requires s.st.pending != []
  {
    [Reserve(w)] + ([Go(w), Go(w)] + WorkEvents(s, w, failure))
  }

  /**
   * The commands of a whole turn: a job already completed is discarded, a processed one is
   * acknowledged, a failed one is retried or dead-lettered with its contents; processing ends as it
   * was, the oldest job has left pending, and the worker is idle.
   */
  lemma SoloTurn(cfg: Config, s: Sys, w: WorkerId, failure: Option<string>)
    requires Inv(cfg, s) && PcOf(s, w).Idle? && s.st.pending != []
    ensures var t := Run(cfg, s, TurnEvents(s, w, failure));
      PcOf(t, w).Idle? && TurnOutcome(cfg, s.st, t.st, failure, s.clock)
  {
    ReservedStore(cfg, s, w);
    RunStep(cfg, s, Reserve(w), [Go(w), Go(w)] + WorkEvents(s, w, failure));
    TurnGoesOn(cfg, s, Apply(cfg, s, Reserve(w)), w, failure);
  }

  lemma TurnGoesOn(cfg: Config, s: Sys, m: Sys, w: WorkerId, failure: Option<string>)
    requires s.st.pending != [] && m.clock == s.clock && PcOf(m, w) == Reserved(s.st.pending[0])
    requires ReservedFrom(s.st, Lease(m.st, s.st.pending[0], s.clock + cfg.visibility))
    ensures var t := Run(cfg, m, [Go(w), Go(w)] + WorkEvents(s, w, failure));
      PcOf(t, w).Idle? && TurnOutcome(cfg, s.st, t.st, failure, s.clock)
  {
    RunConcat(cfg, m, [Go(w), Go(w)], WorkEvents(s, w, failure));
    TurnLeases(cfg, m, w, s.st.pending[0]);
    TurnWorks(cfg, s, Run(cfg, m, [Go(w), Go(w)]), w, failure);
  }

  lemma ReservedStore(cfg: Config, s: Sys, w: WorkerId)
    requires Inv(cfg, s) && s.st.pending != []
    ensures var job := s.st.pending[0]; var m := DoReserve(s, w);
      && PcOf(m, w) == Reserved(job) && m.clock == s.clock
      && ReservedFrom(s.st, Lease(m.st, job, s.clock + cfg.visibility))
  {
    var job := s.st.pending[0];
    if job in s.st.processing { NotPending(cfg, s, job); }
    assert s.st.leases[job := s.clock + cfg.visibility] - {job} == s.st.leases - {job};
  }

  lemma TurnWorks(cfg: Config, s: Sys, m: Sys, w: WorkerId, failure: Option<string>)
    requires s.st.pending != [] && ReservedFrom(s.st, m.st) && PcOf(m, w) == Leased(s.st.pending[0]) && m.clock == s.clock
    ensures var t := Run(cfg, m, WorkEvents(s, w, failure));
      PcOf(t, w).Idle? && TurnOutcome(cfg, s.st, t.st, failure, s.clock)
  {
    var job := s.st.pending[0];
    if job.id in s.st.completed || failure.None? {
      TurnEndsWell(cfg, m, w, job);
      EndsWell(cfg, s.st, m.st, failure, s.clock);
    } else {
      TurnFails(cfg, m, w, job, failure.value);
      EndsInRetry(cfg, s.st, m.st, failure.value, s.clock);
    }
  }

  lemma TurnEndsWell(cfg: Config, m: Sys, w: WorkerId, job: Job)
    requires PcOf(m, w) == Leased(job)
    ensures var t := Run(cfg, m, if job.id in m.st.completed then [Acknowledge(w, false)] else [Go(w), Acknowledge(w, false)]);
      PcOf(t, w).Idle? && t.st == Ack(m.st, job)
  {
    var done := At(m, w, Idle).(st := Ack(m.st, job), acked := m.acked + {job.id});
    if job.id in m.st.completed {
      Traced(cfg, [m, done], [Acknowledge(w, false)]);
    } else {
      var m1 := At(m, w, Running(job));
      Traced(cfg, [m, m1, At(m1, w, Idle).(st := done.st, acked := done.acked)], [Go(w), Acknowledge(w, false)]);
    }
  }

  lemma ThreeCommands(cfg: Config, s: Sys, w: WorkerId)
    ensures Run(cfg, s, [Go(w), Go(w), Go(w)]) == Apply(cfg, Apply(cfg, Apply(cfg, s, Go(w)), Go(w)), Go(w))
  {
    var s1 := Apply(cfg, s, Go(w));
    var s2 := Apply(cfg, s1, Go(w));
    Traced(cfg, [s, s1, s2, Apply(cfg, s2, Go(w))], [Go(w), Go(w), Go(w)]);
  }

  lemma TurnFails(cfg: Config, m: Sys, w: WorkerId, job: Job, reason: string)
    requires PcOf(m, w) == Leased(job) && job.id !in m.st.completed && job in m.st.processing
    ensures var t := Run(cfg, m, [Go(w), Fail(w, reason), Go(w), Go(w), Go(w)]);
      && PcOf(t, w).Idle? && t.st == Requeue(cfg, m.st, job, Retried(job, reason, m.clock))
  {
    var next := Retried(job, reason, m.clock);
    var m1 := At(m, w, Running(job));
    var m2 := At(m1, w, Watching(job, next, Finish));
    assert Apply(cfg, m, Go(w)) == m1 && Apply(cfg, m1, Fail(w, reason)) == m2;
    RunStep(cfg, m, Go(w), [Fail(w, reason), Go(w), Go(w), Go(w)]);
    RunStep(cfg, m1, Fail(w, reason), [Go(w), Go(w), Go(w)]);
    assert [Go(w)] + [Fail(w, reason), Go(w), Go(w), Go(w)] == [Go(w), Fail(w, reason), Go(w), Go(w), Go(w)];
    assert [Fail(w, reason)] + [Go(w), Go(w), Go(w)] == [Fail(w, reason), Go(w), Go(w), Go(w)];
    ThreeCommands(cfg, m2, w);
    SoloRetry(cfg, m2, w);
  }
}
