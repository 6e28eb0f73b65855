/** What every step of the queue protocol keeps. */
module QueueInvariant {
  import opened Wrappers
  import opened QueueStore
  import opened QueueProtocol

  // ---------- the invariant ----------

  /** No job is lost or duplicated: one copy per enqueued id until it is acknowledged. */
  ghost predicate Conserved(s: Sys) {
    forall id: JobId ::
      && Copies(s.st, id) <= 1
      && (id in s.enqueued && id !in s.acked ==> Copies(s.st, id) == 1)
      && (id !in s.enqueued ==> Copies(s.st, id) == 0)
  }

  ghost predicate AttemptsBounded(cfg: Config, st: Store) {
    && (forall j :: j in st.pending ==> j.attempts <= cfg.maxRetries)
    && (forall j :: j in st.processing ==> j.attempts <= cfg.maxRetries)
    && (forall j :: j in st.dead ==> j.attempts == cfg.maxRetries + 1)
  }

  function Reservations(s: Sys, id: JobId): nat {
    Total(s.popped, HasId(id))
  }

  /** The attempts field of a copy counts how often its id has been reserved. */
  ghost predicate Counted(cfg: Config, s: Sys) {
    && (forall j :: j in s.st.pending ==> Reservations(s, j.id) == j.attempts)
    && (forall j :: j in s.st.processing ==> Reservations(s, j.id) == j.attempts + 1)
    && (forall j :: j in s.st.dead ==> Reservations(s, j.id) == j.attempts)
    && (forall id: JobId :: Reservations(s, id) <= cfg.maxRetries + 1)
    && (forall id: JobId :: id !in s.enqueued ==> Reservations(s, id) == 0)
  }

  ghost predicate Core(cfg: Config, s: Sys) {
    && Conserved(s)
    && AttemptsBounded(cfg, s.st)
    && Counted(cfg, s)
    && s.st.completed <= s.acked <= s.enqueued
    && s.popped + s.st.pending == s.pushed
  }

  /** The id lives on, if at all, only with more attempts than `job` has. */
  ghost predicate Gone(st: Store, job: Job) {
    forall j :: OnList(st, j) && j.id == job.id ==> j.attempts > job.attempts
  }

  /** A raw job somebody holds a reference to: in processing, or superseded for good. */
  ghost predicate Held(s: Sys, job: Job) {
    job.id in s.enqueued && (job in s.st.processing || Gone(s.st, job))
  }

  function ContJobs(cont: Cont): seq<Job> {
    if cont.Resume? then cont.rest else []
  }

  function PcJobs(pc: Pc): seq<Job> {
    match pc
    case Idle => []
    case Listing(_) => []
    case Reserved(job) => [job]
    case Stamped(job, _) => [job]
    case Leased(job) => [job]
    case Running(job) => [job]
    case Watching(job, _, cont) => [job] + ContJobs(cont)
    case Looking(job, _, _, cont) => [job] + ContJobs(cont)
    case Executing(job, _, _, cont) => [job] + ContJobs(cont)
    case Missing(job, cont) => [job] + ContJobs(cont)
    case Ensuring(_, todo) => todo
    case Adding(_, todo) => todo
    case Sweeping(_, todo) => todo
    case Cleaning(_, todo) => todo
  }

  /** The job itself with one attempt more and a reason for it. */
  ghost predicate Successor(job: Job, next: Job) {
    && next.id == job.id && next.body == job.body && next.attempts == job.attempts + 1
    && next.failure.Some? && |next.failure.value.reason| <= 200
  }

  ghost predicate PcOk(s: Sys, pc: Pc) {
    && (forall j :: j in PcJobs(pc) ==> Held(s, j))
    && match pc
       case Watching(job, next, _) => Successor(job, next)
       case Looking(job, next, seen, _) => Successor(job, next) && seen <= s.st.version
       case Executing(job, next, seen, _) =>
         Successor(job, next) && seen <= s.st.version && (seen == s.st.version ==> job in s.st.processing)
       case Missing(job, _) => Gone(s.st, job)
       case Cleaning(_, todo) => todo != [] && todo[0].id in s.acked
       case _ => true
  }

  ghost predicate Inv(cfg: Config, s: Sys) {
    && Core(cfg, s)
    && (forall w :: w in s.workers ==> PcOk(s, s.workers[w]))
    && (forall j :: j in s.st.leases ==> Held(s, j))
    && (forall j :: j in s.movedAt ==> Held(s, j))
  }

  // ---------- store transitions ----------

  lemma NotPending(cfg: Config, s: Sys, job: Job)
    requires Core(cfg, s) && job in s.st.processing
    ensures job !in s.st.pending
  {
    TotalMember(s.st.processing, job);
    if job in s.st.pending { TotalMember(s.st.pending, job); }
  }

  /** What all steps guarantee to the jobs and program counters of the other workers. */
  ghost predicate Evolves(s: Sys, t: Sys) {
    && s.enqueued <= t.enqueued && s.acked <= t.acked
    && s.st.version <= t.st.version
    && (s.st.version == t.st.version ==> s.st.processing == t.st.processing)
    && (forall j :: Held(s, j) ==> Held(t, j))
    && (forall j :: Held(s, j) && Gone(s.st, j) ==> Gone(t.st, j))
  }

  lemma SameLists(cfg: Config, s: Sys, t: Sys)
    requires Core(cfg, s)
    requires t.st.pending == s.st.pending && t.st.processing == s.st.processing
    requires t.st.dead == s.st.dead && t.st.version == s.st.version
    requires t.enqueued == s.enqueued && t.acked == s.acked && t.st.completed <= s.st.completed
    requires t.pushed == s.pushed && t.popped == s.popped
    ensures Core(cfg, t) && Evolves(s, t)
  {
    assert forall id: JobId :: Copies(t.st, id) == Copies(s.st, id);
    assert forall id: JobId :: Reservations(t, id) == Reservations(s, id);
    assert forall j :: OnList(t.st, j) == OnList(s.st, j);
  }

  lemma PushTotals(jobs: seq<Job>, id: JobId)
    requires forall i, j :: 0 <= i < j < |jobs| ==> jobs[i].id != jobs[j].id
    ensures Total(jobs, HasId(id)) == if id in Ids(jobs) then 1 else 0
    decreases |jobs|
  {
    if jobs != [] {
      PushTotals(jobs[1..], id);
      assert forall j :: j in jobs <==> j == jobs[0] || j in jobs[1..];
      if jobs[0].id == id {
        assert id !in Ids(jobs[1..]);
      } else {
        assert id in Ids(jobs) <==> id in Ids(jobs[1..]);
      }
    }
  }

  lemma PushCore(cfg: Config, s: Sys, jobs: seq<Job>)
    requires Core(cfg, s) && NewJobs(s, jobs)
    ensures Core(cfg, DoPush(s, jobs)) && Evolves(s, DoPush(s, jobs))
  {
    var t := DoPush(s, jobs);
    forall id: JobId
      ensures Copies(t.st, id) == Copies(s.st, id) + if id in Ids(jobs) then 1 else 0
      ensures Reservations(t, id) == Reservations(s, id)
    {
      PushTotals(jobs, id);
      TotalConcat(s.st.pending, jobs, HasId(id));
    }
    assert forall j :: j in jobs ==> j.attempts == 0 && j.id in Ids(jobs) && j.id !in s.enqueued;
    assert s.popped + t.st.pending == (s.popped + s.st.pending) + jobs;
  }

  lemma MoveTotals(s: Sys, w: WorkerId)
    requires s.st.pending != []
    ensures forall id: JobId :: Copies(DoReserve(s, w).st, id) == Copies(s.st, id)
    ensures forall id: JobId ::
      Reservations(DoReserve(s, w), id) == Reservations(s, id) + if id == s.st.pending[0].id then 1 else 0
  {
    var t := DoReserve(s, w);
    var job := s.st.pending[0];
    forall id: JobId
      ensures Copies(t.st, id) == Copies(s.st, id)
      ensures Reservations(t, id) == Reservations(s, id) + if id == job.id then 1 else 0
    {
      TotalConcat(s.st.processing, [job], HasId(id));
      TotalConcat(s.popped, [job], HasId(id));
      TotalOne(job, HasId(id));
    }
  }

  /** The moved job was the only copy of its id, so no other list element changes. */
  lemma MoveMembers(cfg: Config, s: Sys, w: WorkerId)
    requires Core(cfg, s) && s.st.pending != []
    ensures var t := DoReserve(s, w).st; var job := s.st.pending[0];
      && OnList(s.st, job) && job in t.processing
      && (forall j :: j in t.pending ==> j in s.st.pending && j.id != job.id)
      && (forall j :: j in t.processing && j != job ==> j in s.st.processing && j.id != job.id)
      && (forall j :: j in t.dead ==> j in s.st.dead && j.id != job.id)
      && job.id in s.enqueued
  {
    var t := DoReserve(s, w).st;
    var job := s.st.pending[0];
    assert Copies(s.st, job.id) == 1 by { TotalMember(s.st.pending, job); }
    assert Total(t.pending, HasId(job.id)) == 0
        && Total(s.st.processing, HasId(job.id)) == 0 && Total(s.st.dead, HasId(job.id)) == 0;
    TotalZero(t.pending, job.id);
    TotalZero(s.st.processing, job.id);
    TotalZero(s.st.dead, job.id);
  }

  lemma MoveCounted(cfg: Config, s: Sys, w: WorkerId)
    requires Core(cfg, s) && s.st.pending != []
    ensures AttemptsBounded(cfg, DoReserve(s, w).st) && Counted(cfg, DoReserve(s, w))
  {
    MoveTotals(s, w);
    MoveMembers(cfg, s, w);
    var job := s.st.pending[0];
    assert job in s.st.pending && Reservations(s, job.id) == job.attempts;
  }

  lemma MoveCore(cfg: Config, s: Sys, w: WorkerId)
    requires Core(cfg, s) && s.st.pending != []
    ensures Core(cfg, DoReserve(s, w)) && Evolves(s, DoReserve(s, w))
  {
    var t := DoReserve(s, w);
    var job := s.st.pending[0];
    MoveTotals(s, w);
    MoveCounted(cfg, s, w);
    assert t.popped + t.st.pending == s.popped + s.st.pending;
    forall j | OnList(t.st, j)
      ensures OnList(s.st, j)
    {
      MoveMembers(cfg, s, w);
    }
  }

  lemma DropCore(cfg: Config, s: Sys, t: Sys, job: Job)
    requires Core(cfg, s) && job.id in t.acked && Held(s, job)
    requires s.acked <= t.acked <= t.enqueued == s.enqueued
    requires t.st == Drop(s.st, job).(completed := t.st.completed) && t.st.completed <= t.acked
    requires t.pushed == s.pushed && t.popped == s.popped
    ensures Core(cfg, t) && Evolves(s, t)
  {
    DropTotals(s.st, job);
    var d := Drop(s.st, job);
    assert forall id: JobId :: Copies(t.st, id) == Copies(d, id);
    assert forall id: JobId :: Reservations(t, id) == Reservations(s, id);
    assert forall j :: OnList(t.st, j) == OnList(d, j);
  }

  lemma RequeueCounted(cfg: Config, s: Sys, job: Job, next: Job)
    requires Core(cfg, s) && job in s.st.processing && Successor(job, next)
    ensures var t := Requeue(cfg, s.st, job, next); AttemptsBounded(cfg, t) && Counted(cfg, s.(st := t))
  {
    var t := s.(st := Requeue(cfg, s.st, job, next));
    DropTotals(s.st, job);
    assert Reservations(s, job.id) == job.attempts + 1;
    assert forall id: JobId :: Reservations(t, id) == Reservations(s, id);
  }

  lemma RequeueCore(cfg: Config, s: Sys, t: Sys, job: Job, next: Job)
    requires Core(cfg, s) && job in s.st.processing && Successor(job, next)
    requires t.st == Requeue(cfg, s.st, job, next)
    requires t.enqueued == s.enqueued && t.acked == s.acked && t.popped == s.popped
    requires t.pushed == if next.attempts <= cfg.maxRetries then s.pushed + [next] else s.pushed
    ensures Core(cfg, t) && Evolves(s, t)
  {
    assert Conserved(t) by { RequeueTotals(cfg, s.st, job, next); }
    assert AttemptsBounded(cfg, t.st) && Counted(cfg, t) by {
      RequeueCounted(cfg, s, job, next);
      assert forall id: JobId :: Reservations(t, id) == Reservations(s.(st := t.st), id);
    }
    assert s.popped + (s.st.pending + [next]) == (s.popped + s.st.pending) + [next];
    assert job.id in s.enqueued by { TotalMember(s.st.processing, job); }
    RequeueHeld(cfg, s, t, job, next);
  }

  lemma RequeueHeld(cfg: Config, s: Sys, t: Sys, job: Job, next: Job)
    requires Core(cfg, s) && job in s.st.processing && Successor(job, next)
    requires t.st == Requeue(cfg, s.st, job, next) && t.enqueued == s.enqueued
    ensures forall j :: Held(s, j) ==> Held(t, j)
    ensures forall j :: Held(s, j) && Gone(s.st, j) ==> Gone(t.st, j)
  {
    RequeueTotals(cfg, s.st, job, next);
    assert OnList(s.st, job);
    forall j | Held(s, j)
      ensures Held(t, j) && (Gone(s.st, j) ==> Gone(t.st, j))
    {
      if Gone(s.st, j) {
        assert Gone(t.st, j);
      } else if j == job {
        assert Gone(t.st, j);
      } else {
        DropTotals(s.st, job);
        assert j in t.st.processing;
      }
    }
  }
}
