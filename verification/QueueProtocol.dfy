/**
 * Workers and producers sharing one queue, one Redis command at a time.
 *
 * Every worker is a program counter. An event names the worker that runs next and the choices
 * the environment makes for it; an event that is not enabled leaves the system as it was, so
 * every sequence of events is a run and every statement about all runs is about all
 * interleavings, crashes and late replies.
 */
module QueueProtocol {
  import opened Wrappers
  import opened QueueStore

  /** What a retry returns to: the worker's own job is finished, or a recovery scan goes on. */
  datatype Cont = Finish | Resume(now: real, rest: seq<Job>)

  datatype Pc =
    | Idle
    | Reserved(job: Job)                                    // LMOVE done, clock not read yet
    | Stamped(job: Job, read: real)                         // clock read, ZADD next
    | Leased(job: Job)                                      // reservation returned to the caller
    | Running(job: Job)                                     // no completion marker, being processed
    | Watching(job: Job, next: Job, cont: Cont)             // WATCH next
    | Looking(job: Job, next: Job, seen: nat, cont: Cont)   // LPOS next
    | Executing(job: Job, next: Job, seen: nat, cont: Cont) // EXEC next
    | Missing(job: Job, cont: Cont)                         // ZREM next, the job was not found
    | Listing(now: real)                                    // LRANGE next
    | Ensuring(now: real, todo: seq<Job>)                   // ZSCORE of the head next
    | Adding(now: real, todo: seq<Job>)                     // ZADD NX of the head next
    | Sweeping(now: real, todo: seq<Job>)                   // EXISTS of the head next
    | Cleaning(now: real, todo: seq<Job>)                   // MULTI of LREM and ZREM next

  type WorkerId = nat

  datatype Event =
    | Tick(to: real)
    | Push(jobs: seq<Job>)                       // RPUSH of one job, or the MULTI of a bulk enqueue
    | Expire(id: JobId)                          // a completion marker reaches its TTL
    | Crash(w: WorkerId)                         // the worker dies or a Redis error ends its call
    | Reserve(w: WorkerId)
    | Scan(w: WorkerId)                          // recover_stale reads the clock
    | StaleScan(w: WorkerId, stale: seq<Job>)    // ZRANGEBYSCORE
    | Acknowledge(w: WorkerId, replyLost: bool)
    | Fail(w: WorkerId, reason: string)          // processing raised
    | Go(w: WorkerId)                            // the one command the program counter asks for

  /**
   * The last six fields are history: ids ever enqueued and ever acknowledged, everything
   * ever pushed to and popped from pending, when each raw job was moved to processing, from
   * which clock reading its latest lease was computed, and which raw jobs a scan leased from
   * a reading older than their move.
   */
  datatype Sys = Sys(
    st: Store,
    workers: map<WorkerId, Pc>,
    clock: real,
    enqueued: set<JobId>,
    acked: set<JobId>,
    pushed: seq<Job>,
    popped: seq<Job>,
    movedAt: map<Job, real>,
    origin: map<Job, real>,
    early: set<Job>)

  const INIT := Sys(EMPTY, map[], 0.0, {}, {}, [], [], map[], map[], {})

  function PcOf(s: Sys, w: WorkerId): Pc {
    if w in s.workers then s.workers[w] else Idle
  }

  function At(s: Sys, w: WorkerId, pc: Pc): Sys {
    s.(workers := s.workers[w := pc])
  }

  function Continue(cont: Cont): Pc {
    match cont
    case Finish => Idle
    case Resume(now, rest) => Sweeping(now, rest)
  }

  // ---------- steps ----------

  ghost predicate NewJobs(s: Sys, jobs: seq<Job>) {
    && (forall i :: 0 <= i < |jobs| ==> jobs[i].attempts == 0 && jobs[i].failure == None)
    && (forall i :: 0 <= i < |jobs| ==> jobs[i].id !in s.enqueued)
    && (forall i, j :: 0 <= i < j < |jobs| ==> jobs[i].id != jobs[j].id)
  }

  function Ids(jobs: seq<Job>): set<JobId> {
    set j | j in jobs :: j.id
  }

  function DoPush(s: Sys, jobs: seq<Job>): Sys {
    s.(st := s.st.(pending := s.st.pending + jobs),
       enqueued := s.enqueued + Ids(jobs),
       pushed := s.pushed + jobs)
  }

  function DoReserve(s: Sys, w: WorkerId): Sys
    requires s.st.pending != []
  {
    var job := s.st.pending[0];
    At(s, w, Reserved(job)).(
      st := Move(s.st),
      popped := s.popped + [job],
      movedAt := s.movedAt[job := s.clock])
  }

  /** A lease written by its own worker, from a reading taken after the move. */
  function DoStamp(cfg: Config, s: Sys, w: WorkerId, job: Job, read: real): Sys {
    At(s, w, Leased(job)).(
      st := Lease(s.st, job, read + cfg.visibility),
      origin := s.origin[job := read])
  }

  /** ZADD NX by a scan: writes only where there is no lease. */
  function DoAdd(cfg: Config, s: Sys, w: WorkerId, now: real, todo: seq<Job>): Sys
    requires todo != []
  {
    var job := todo[0];
    var s' := At(s, w, Ensuring(now, todo[1..]));
    if job in s.st.leases then s'
    else s'.(st := Lease(s.st, job, now + cfg.visibility),
             origin := s.origin[job := now],
             early := if job in s.movedAt && now < s.movedAt[job] then s.early + {job} else s.early)
  }

  function DoExec(cfg: Config, s: Sys, w: WorkerId, job: Job, next: Job, seen: nat, cont: Cont): Sys {
    if seen != s.st.version then At(s, w, Watching(job, next, cont))
    else At(s, w, Continue(cont)).(
      st := Requeue(cfg, s.st, job, next),
      pushed := if next.attempts <= cfg.maxRetries then s.pushed + [next] else s.pushed)
  }

  function DoGo(cfg: Config, s: Sys, w: WorkerId): Sys {
    match PcOf(s, w)
    case Reserved(job) => At(s, w, Stamped(job, s.clock))
    case Stamped(job, read) => DoStamp(cfg, s, w, job, read)
    case Leased(job) => if job.id in s.st.completed then s else At(s, w, Running(job))
    case Watching(job, next, cont) => At(s, w, Looking(job, next, s.st.version, cont))
    case Looking(job, next, seen, cont) =>
      if job in s.st.processing then At(s, w, Executing(job, next, seen, cont))
      else At(s, w, Missing(job, cont))
    case Executing(job, next, seen, cont) => DoExec(cfg, s, w, job, next, seen, cont)
    case Missing(job, cont) => At(s, w, Continue(cont)).(st := Unlease(s.st, job))
    case Listing(now) => At(s, w, Ensuring(now, s.st.processing))
    case Ensuring(now, todo) =>
      if todo == [] then s
      else if todo[0] in s.st.leases then At(s, w, Ensuring(now, todo[1..]))
      else At(s, w, Adding(now, todo))
    case Adding(now, todo) => if todo == [] then s else DoAdd(cfg, s, w, now, todo)
    case Sweeping(now, todo) =>
      if todo == [] then At(s, w, Idle)
      else if todo[0].id in s.st.completed then At(s, w, Cleaning(now, todo))
      else At(s, w, Watching(todo[0], Retried(todo[0], STALE_REASON, s.clock), Resume(now, todo[1..])))
    case Cleaning(now, todo) =>
      if todo == [] then s else At(s, w, Sweeping(now, todo[1..])).(st := Drop(s.st, todo[0]))
    case _ => s
  }

  /** `stale` lists, by rising deadline, exactly the raw jobs whose lease is at or before `now`. */
  ghost predicate IsStaleList(st: Store, now: real, stale: seq<Job>) {
    && (forall j :: j in stale <==> j in st.leases && st.leases[j] <= now)
    && (forall i, k :: 0 <= i < k < |stale| ==> stale[i] != stale[k])
    && (forall i, k :: 0 <= i < k < |stale| && stale[i] in st.leases && stale[k] in st.leases
          ==> st.leases[stale[i]] <= st.leases[stale[k]])
  }

  ghost function Apply(cfg: Config, s: Sys, e: Event): Sys {
    match e
    case Tick(to) => if to >= s.clock then s.(clock := to) else s
    case Push(jobs) => if NewJobs(s, jobs) then DoPush(s, jobs) else s
    case Expire(id) => s.(st := s.st.(completed := s.st.completed - {id}))
    case Crash(w) => At(s, w, Idle)
    case Reserve(w) => if PcOf(s, w).Idle? && s.st.pending != [] then DoReserve(s, w) else s
    case Scan(w) => if PcOf(s, w).Idle? then At(s, w, Listing(s.clock)) else s
    case StaleScan(w, stale) =>
      (match PcOf(s, w)
       case Ensuring(now, todo) =>
         if todo == [] && IsStaleList(s.st, now, stale) then At(s, w, Sweeping(now, stale)) else s
       case _ => s)
    case Acknowledge(w, replyLost) =>
      (match PcOf(s, w)
       case Leased(job) =>
         At(s, w, Idle).(st := Ack(s.st, job), acked := s.acked + {job.id})
       case Running(job) =>
         // an error after the MULTI took effect is handled like a processing failure
         var pc := if replyLost then Watching(job, Retried(job, "RedisError", s.clock), Finish) else Idle;
         At(s, w, pc).(st := Ack(s.st, job), acked := s.acked + {job.id})
       case _ => s)
    case Fail(w, reason) =>
      (match PcOf(s, w)
       case Running(job) => At(s, w, Watching(job, Retried(job, reason, s.clock), Finish))
       case _ => s)
    case Go(w) => DoGo(cfg, s, w)
  }

  ghost function Run(cfg: Config, s: Sys, es: seq<Event>): Sys {
    if es == [] then s else Apply(cfg, Run(cfg, s, es[..|es| - 1]), es[|es| - 1])
  }

  lemma {:induction false} RunConcat(cfg: Config, s: Sys, a: seq<Event>, b: seq<Event>)
    ensures Run(cfg, s, a + b) == Run(cfg, Run(cfg, s, a), b)
  {
    if b == [] {
      assert a + b == a;
    } else {
      var n := |b| - 1;
      assert (a + b)[..|a + b| - 1] == a + b[..n];
      RunConcat(cfg, s, a, b[..n]);
    }
  }

  /** A run told state by state. */
  lemma {:induction false} Traced(cfg: Config, states: seq<Sys>, es: seq<Event>)
    requires |states| == |es| + 1
    requires forall i :: 0 <= i < |es| ==> states[i + 1] == Apply(cfg, states[i], es[i])
    ensures Run(cfg, states[0], es) == states[|es|]
    decreases |es|
  {
    if es != [] { Traced(cfg, states[..|es|], es[..|es| - 1]); }
  }
}
