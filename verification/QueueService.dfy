/**
 * The queue service and its worker as one client sees them: each method sends its commands to
 * the shared store in the order the service does. Other clients appear where the service
 * itself guards against them, in the optimistic WATCH loop of a retry.
 */
module QueueService {
  import opened Wrappers
  import opened QueueStore
  import opened QueueProtocol
  import opened QueueInvariant
  import opened QueueRecovery
  import opened QueueTurn

  datatype Outcome = Retry | DeadLetter | NotFound

  datatype EnqueueError = NoValues

  ghost predicate StoreOk(cfg: Config, st: Store) {
    OneCopy(st) && AttemptsBounded(cfg, st)
  }

  predicate IsNew(job: Job, id: JobId, body: string) {
    job.id == id && job.body == body && job.attempts == 0 && job.failure == None
  }

  function NewJob(id: JobId, body: string): Job {
    Job(id, body, 0, None)
  }

  /** What a retry amounts to when it runs as one step. */
  function RetryNow(cfg: Config, st: Store, job: Job, next: Job): (Store, Outcome) {
    if job !in st.processing then (Unlease(st, job), NotFound)
    else (Requeue(cfg, st, job, next), if next.attempts <= cfg.maxRetries then Retry else DeadLetter)
  }

  /** A command, or MULTI block, another client sends to the queue's keys. */
  datatype Rival =
    | Pushes(jobs: seq<Job>)
    | Moves
    | Leases(job: Job, deadline: real)
    | Unleases(job: Job)
    | Acks(job: Job)
    | Cleans(job: Job)
    | Retries(job: Job, reason: string, at: real)
    | Expires(id: JobId)

  predicate Fresh(st: Store, jobs: seq<Job>) {
    && (forall i :: 0 <= i < |jobs| ==> jobs[i].attempts == 0 && Copies(st, jobs[i].id) == 0)
    && (forall i, k :: 0 <= i < k < |jobs| ==> jobs[i].id != jobs[k].id)
  }

  function Rivaled(cfg: Config, st: Store, r: Rival): Store {
    match r
    case Pushes(jobs) => if Fresh(st, jobs) then st.(pending := st.pending + jobs) else st
    case Moves => if st.pending == [] then st else Move(st)
    case Leases(job, deadline) => Lease(st, job, deadline)
    case Unleases(job) => Unlease(st, job)
    case Acks(job) => Ack(st, job)
    case Cleans(job) => Drop(st, job)
    case Retries(job, reason, at) => RetryNow(cfg, st, job, Retried(job, reason, at)).0
    case Expires(id) => st.(completed := st.completed - {id})
  }

  /** Any commands of any other clients, in order. */
  function RivaledAll(cfg: Config, st: Store, rs: seq<Rival>): Store
    decreases |rs|
  {
    if rs == [] then st else Rivaled(cfg, RivaledAll(cfg, st, rs[..|rs| - 1]), rs[|rs| - 1])
  }

  /** One batch of rivals after another. */
  function RivaledBatches(cfg: Config, st: Store, batches: seq<seq<Rival>>): Store
    decreases |batches|
  {
    if batches == [] then st
    else RivaledAll(cfg, RivaledBatches(cfg, st, batches[..|batches| - 1]), batches[|batches| - 1])
  }

  // ---------- the service keeps a well-formed store ----------

  lemma DropOk(cfg: Config, st: Store, job: Job)
    requires StoreOk(cfg, st)
    ensures StoreOk(cfg, Drop(st, job)) && StoreOk(cfg, Ack(st, job)) && StoreOk(cfg, Unlease(st, job))
  {
    DropTotals(st, job);
    assert forall id: JobId :: Copies(Ack(st, job), id) == Copies(Drop(st, job), id);
    assert forall id: JobId :: Copies(Unlease(st, job), id) == Copies(st, id);
  }

  lemma RequeueOk(cfg: Config, st: Store, job: Job, next: Job)
    requires StoreOk(cfg, st) && job in st.processing && Successor(job, next)
    ensures StoreOk(cfg, Requeue(cfg, st, job, next))
  {
    RequeueTotals(cfg, st, job, next);
    DropTotals(st, job);
  }

  lemma LeaseOk(cfg: Config, st: Store, job: Job, deadline: real)
    requires StoreOk(cfg, st)
    ensures StoreOk(cfg, Lease(st, job, deadline))
  {
    assert forall id: JobId :: Copies(Lease(st, job, deadline), id) == Copies(st, id);
  }

  lemma LeasesOk(cfg: Config, st: Store, st': Store)
    requires StoreOk(cfg, st) && st' == st.(leases := st'.leases)
    ensures StoreOk(cfg, st')
  {
    assert forall id: JobId :: Copies(st', id) == Copies(st, id);
  }

  ghost predicate NewLeases(st: Store, st': Store, added: nat) {
    st.leases.Keys <= st'.leases.Keys && added == |st'.leases.Keys - st.leases.Keys|
  }

  lemma LeaseCounted(st: Store, st': Store, added: nat, job: Job, deadline: real)
    requires NewLeases(st, st', added) && job !in st'.leases
    ensures NewLeases(st, Lease(st', job, deadline), added + 1)
  {
    assert Lease(st', job, deadline).leases.Keys - st.leases.Keys == (st'.leases.Keys - st.leases.Keys) + {job};
  }

  lemma MoveOk(cfg: Config, st: Store)
    requires StoreOk(cfg, st) && st.pending != []
    ensures StoreOk(cfg, Move(st))
    ensures st.pending[0] !in st.processing
  {
    var job := st.pending[0];
    forall id: JobId
      ensures Copies(Move(st), id) == Copies(st, id)
    {
      TotalConcat(st.processing, [job], HasId(id));
      TotalOne(job, HasId(id));
    }
    assert job in st.pending;
    assert Copies(st, job.id) <= 1;
    if job in st.processing { TotalMember(st.processing, job); }
  }

  lemma PushOk(cfg: Config, st: Store, jobs: seq<Job>)
    requires StoreOk(cfg, st)
    requires forall i :: 0 <= i < |jobs| ==> jobs[i].attempts == 0 && Copies(st, jobs[i].id) == 0
    requires forall i, k :: 0 <= i < k < |jobs| ==> jobs[i].id != jobs[k].id
    ensures StoreOk(cfg, st.(pending := st.pending + jobs))
  {
    forall id: JobId
      ensures Copies(st.(pending := st.pending + jobs), id) <= 1
    {
      PushTotals(jobs, id);
      TotalConcat(st.pending, jobs, HasId(id));
      assert Copies(st, id) <= 1;
    }
    assert forall j :: j in jobs ==> j.attempts == 0;
  }

  lemma RivalOk(cfg: Config, st: Store, r: Rival)
    requires StoreOk(cfg, st)
    ensures StoreOk(cfg, Rivaled(cfg, st, r))
  {
    match r
    case Pushes(jobs) => if Fresh(st, jobs) { PushOk(cfg, st, jobs); }
    case Moves => if st.pending != [] { MoveOk(cfg, st); }
    case Leases(job, deadline) => LeaseOk(cfg, st, job, deadline);
    case Unleases(job) => DropOk(cfg, st, job);
    case Acks(job) => DropOk(cfg, st, job);
    case Cleans(job) => DropOk(cfg, st, job);
    case Retries(job, reason, at) =>
      if job in st.processing { RequeueOk(cfg, st, job, Retried(job, reason, at)); } else { DropOk(cfg, st, job); }
    case Expires(id) =>
      assert forall i: JobId :: Copies(Rivaled(cfg, st, r), i) == Copies(st, i);
  }

  /** A rival that leaves the version alone has left the processing list alone. */
  lemma RivalSeen(cfg: Config, st: Store, r: Rival)
    ensures var t := Rivaled(cfg, st, r);
      st.version <= t.version && (t.version == st.version ==> t.processing == st.processing)
  {
    match r
    case Acks(job) => if job !in st.processing { WithoutAbsent(st.processing, job); }
    case Cleans(job) => if job !in st.processing { WithoutAbsent(st.processing, job); }
    case _ =>
  }

  lemma {:induction false} RivalsSeen(cfg: Config, st: Store, rs: seq<Rival>)
    requires StoreOk(cfg, st)
    ensures var t := RivaledAll(cfg, st, rs);
      && StoreOk(cfg, t)
      && st.version <= t.version && (t.version == st.version ==> t.processing == st.processing)
    decreases |rs|
  {
    if rs != [] {
      RivalsSeen(cfg, st, rs[..|rs| - 1]);
      var m := RivaledAll(cfg, st, rs[..|rs| - 1]);
      RivalOk(cfg, m, rs[|rs| - 1]);
      RivalSeen(cfg, m, rs[|rs| - 1]);
    }
  }

  lemma NextBatch(cfg: Config, st: Store, batches: seq<seq<Rival>>, i: nat)
    requires i < |batches|
    ensures RivaledBatches(cfg, st, batches[..i + 1]) == RivaledAll(cfg, RivaledBatches(cfg, st, batches[..i]), batches[i])
  {
    assert batches[..i + 1][..i] == batches[..i];
  }

  lemma SweepOk(cfg: Config, r: Recovery, job: Job, at: real)
    requires StoreOk(cfg, r.st)
    ensures StoreOk(cfg, SweepOne(cfg, r, job, at).st)
  {
    DropOk(cfg, r.st, job);
    if job in r.st.processing { RequeueOk(cfg, r.st, job, Retried(job, STALE_REASON, at)); }
  }

  lemma {:induction false} StoreDistinct(st: Store)
    requires OneCopy(st)
    ensures Distinct(st.processing)
  {
    forall i, k | 0 <= i < k < |st.processing|
      ensures st.processing[i] != st.processing[k]
    {
      assert Copies(st, st.processing[k].id) <= 1;
      if st.processing[i] == st.processing[k] { TwoCopies(st.processing, i, k); }
    }
  }

  class Service {
    const cfg: Config
    var store: Store

    ghost predicate Valid()
      reads this
    {
      StoreOk(cfg, store)
    }

    constructor (maxRetries: nat, visibility: real)
      ensures Valid() && store == EMPTY && cfg == Config(maxRetries, visibility)
    {
      cfg := Config(maxRetries, visibility);
      store := EMPTY;
    }

    method Enqueue(id: JobId, body: string) returns (job: Job)
      requires Valid() && Copies(store, id) == 0
      modifies this`store
      ensures Valid() && IsNew(job, id, body)
      ensures store == old(store).(pending := old(store).pending + [job])
    {
      job := NewJob(id, body);
      PushOk(cfg, store, [job]);
      store := store.(pending := store.pending + [job]);
    }

    /** All jobs appear at once and in order; with nothing to push Redis refuses the command. */
    method EnqueueMany(ids: seq<JobId>, body: string) returns (r: Result<seq<Job>, EnqueueError>)
      requires Valid()
      requires forall i :: 0 <= i < |ids| ==> Copies(store, ids[i]) == 0
      requires forall i, k :: 0 <= i < k < |ids| ==> ids[i] != ids[k]
      modifies this`store
      ensures Valid()
      ensures ids == [] ==> r == Err(NoValues) && store == old(store)
      ensures ids != [] ==>
        && r.Ok? && |r.value| == |ids|
        && (forall i :: 0 <= i < |ids| ==> IsNew(r.value[i], ids[i], body))
        && store == old(store).(pending := old(store).pending + r.value)
    {
      var jobs: seq<Job> := [];
      for n := 0 to |ids|
        invariant |jobs| == n && store == old(store)
        invariant forall i :: 0 <= i < n ==> jobs[i] == NewJob(ids[i], body)
      {
        jobs := jobs + [NewJob(ids[n], body)];
      }
      if jobs == [] { return Err(NoValues); }
      PushOk(cfg, store, jobs);
      store := store.(pending := store.pending + jobs);
      r := Ok(jobs);
    }

    /** The oldest pending job moves to the end of processing and gets a lease from `clock`. */
    method Reserve(clock: real) returns (r: Option<Job>)
      requires Valid()
      modifies this`store
      ensures Valid()
      ensures old(store).pending == [] ==> r == None && store == old(store)
      ensures old(store).pending != [] ==>
        && r == Some(old(store).pending[0])
        && store == Lease(Move(old(store)), old(store).pending[0], clock + cfg.visibility)
        && store.pending == old(store).pending[1..]
        && store.processing == old(store).processing + [r.value]
        && store.leases == old(store).leases[r.value := clock + cfg.visibility]
        && store.dead == old(store).dead && store.completed == old(store).completed
    {
      if store.pending == [] { return None; }
      var job := store.pending[0];
      MoveOk(cfg, store);
      store := Move(store);
      LeaseOk(cfg, store, job, clock + cfg.visibility);
      store := Lease(store, job, clock + cfg.visibility);
      r := Some(job);
    }

    method Acknowledge(job: Job) returns (removed: bool)
      requires Valid()
      modifies this`store
      ensures Valid() && store == Ack(old(store), job)
      ensures removed == (job in old(store).processing)
      ensures job !in store.processing && store.leases == old(store).leases - {job}
      ensures store.pending == old(store).pending && store.dead == old(store).dead
      ensures store.completed == old(store).completed + {job.id}
      ensures forall j :: j in old(store).processing && j != job ==> j in store.processing
      ensures removed ==> Copies(store, job.id) == 0
      ensures !removed ==> store.processing == old(store).processing
    {
      DropOk(cfg, store, job);
      DropTotals(store, job);
      removed := job in store.processing;
      assert job in Drop(store, job).processing ==> OnList(Drop(store, job), job);
      assert Copies(store, job.id) <= 1;
      assert Copies(Ack(store, job), job.id) == Copies(Drop(store, job), job.id);
      store := Ack(store, job);
    }

    method IsCompleted(id: JobId) returns (r: bool)
      ensures r == (id in store.completed)
    {
      r := id in store.completed;
    }

    /**
     * `rivals` are the commands other clients slip in between a LPOS and its EXEC, one batch per
     * attempt. The loop ends when the rivals do, and the whole call equals the retry done in one
     * step after some of the batches, so no rival's change is ever overwritten.
     */
    method RetryOrDeadLetter(job: Job, reason: string, at: real, rivals: seq<seq<Rival>>)
      returns (outcome: Outcome, ghost used: nat)
      requires Valid()
      modifies this`store
      ensures Valid() && used <= |rivals|
      ensures (store, outcome)
           == RetryNow(cfg, RivaledBatches(cfg, old(store), rivals[..used]), job, Retried(job, reason, at))
      ensures rivals == [] ==> used == 0
      ensures var before := RivaledBatches(cfg, old(store), rivals[..used]);
        && store.leases == before.leases - {job} && store.completed == before.completed
        && (outcome == NotFound <==> job !in before.processing)
        && (outcome == NotFound ==>
              store.processing == before.processing && store.pending == before.pending && store.dead == before.dead)
        && (outcome == Retry ==>
              && job.attempts < cfg.maxRetries && store.dead == before.dead
              && |store.pending| == |before.pending| + 1 && before.pending <= store.pending
              && IsRetryOf(store.pending[|before.pending|], job, reason, at))
        && (outcome == DeadLetter ==>
              && job.attempts >= cfg.maxRetries && store.pending == before.pending
              && |store.dead| == |before.dead| + 1 && before.dead <= store.dead
              && IsRetryOf(store.dead[|before.dead|], job, reason, at))
    {
      var next := Retried(job, reason, at);
      RetriedIs(job, reason, at);
      var i := 0;
      assert rivals[..0] == [];
      while true
        invariant i <= |rivals| && Valid()
        invariant store == RivaledBatches(cfg, old(store), rivals[..i])
        decreases |rivals| - i
      {
        var seen := store.version;
        if job !in store.processing {
          DropOk(cfg, store, job);
          store := Unlease(store, job);
          return NotFound, i;
        }
        if i < |rivals| {
          RivalsSeen(cfg, store, rivals[i]);
          NextBatch(cfg, old(store), rivals, i);
          store := RivaledAll(cfg, store, rivals[i]);
          i := i + 1;
          if store.version != seen { continue; }
        }
        RequeueOk(cfg, store, job, next);
        store := Requeue(cfg, store, job, next);
        return if next.attempts <= cfg.maxRetries then Retry else DeadLetter, i;
      }
    }

    method EnsureProcessingLeases(now: real) returns (added: nat)
      requires Valid()
      modifies this`store
      ensures Valid() && store == EnsureAll(cfg, old(store), now, old(store).processing)
      ensures added == |store.leases.Keys - old(store).leases.Keys|
    {
      var listed := store.processing;
      added := 0;
      assert listed[0..] == listed;
      for i := 0 to |listed|
        invariant EnsureAll(cfg, store, now, listed[i..]) == EnsureAll(cfg, old(store), now, listed)
        invariant NewLeases(old(store), store, added)
      {
        assert listed[i..][1..] == listed[i + 1..];
        if listed[i] !in store.leases {
          LeaseCounted(old(store), store, added, listed[i], now + cfg.visibility);
          store := Lease(store, listed[i], now + cfg.visibility);
          added := added + 1;
        }
      }
      EnsureAllEffect(cfg, old(store), now, listed);
      LeasesOk(cfg, old(store), store);
    }

    /** ZRANGEBYSCORE leases -inf now. */
    method StaleLeases(now: real) returns (stale: seq<Job>)
      ensures IsStaleList(store, now, stale)
    {
      var rest := set j | j in store.leases && store.leases[j] <= now;
      stale := [];
      while rest != {}
        invariant rest <= store.leases.Keys
        invariant forall j :: j in stale || j in rest <==> j in store.leases && store.leases[j] <= now
        invariant forall j :: j in stale ==> j !in rest
        invariant forall i, k :: 0 <= i < k < |stale| ==> stale[i] != stale[k]
        invariant forall i, k :: 0 <= i < k < |stale| && stale[i] in store.leases && stale[k] in store.leases ==>
          store.leases[stale[i]] <= store.leases[stale[k]]
        invariant forall i, j :: 0 <= i < |stale| && stale[i] in store.leases && j in rest ==>
          store.leases[stale[i]] <= store.leases[j]
        decreases rest
      {
        EarliestExists(store.leases, rest);
        var m :| m in rest && forall j :: j in rest ==> store.leases[m] <= store.leases[j];
        stale := stale + [m];
        rest := rest - {m};
      }
    }

    /** One undisturbed scan: the recovery contract, with the tally saying what moved where. */
    method RecoverStale(now: real, at: real) returns (tally: Tally, ghost stale: seq<Job>)
      requires Valid() && cfg.visibility > 0.0
      modifies this`store
      ensures Valid()
      ensures IsStaleList(EnsureAll(cfg, old(store), now, old(store).processing), now, stale)
      ensures Recovery(store, tally) == Recovered(cfg, old(store), now, stale, at)
      ensures forall j :: j in store.leases ==> store.leases[j] > now
      ensures forall j :: j in store.processing ==> j in store.leases
      ensures forall j :: j in store.processing <==> j in old(store).processing && Unexpired(old(store), now, j)
      ensures |store.pending| == |old(store).pending| + tally.retried
      ensures |store.dead| == |old(store).dead| + tally.deadLettered
    {
      var added := EnsureProcessingLeases(now);
      ghost var ensured := store;
      var todo := StaleLeases(now);
      stale := todo;
      tally := NONE;
      assert todo[0..] == todo;
      for i := 0 to |todo|
        invariant Valid()
        invariant SweepAll(cfg, Recovery(store, tally), todo[i..], at) == SweepAll(cfg, Recovery(ensured, NONE), todo, at)
      {
        var job := todo[i];
        ghost var before := Recovery(store, tally);
        assert todo[i..][1..] == todo[i + 1..];
        SweepOk(cfg, before, job, at);
        var done := IsCompleted(job.id);
        if done {
          store := Drop(store, job);
          tally := tally.(alreadyCompleted := tally.alreadyCompleted + 1);
        } else {
          var outcome, used := RetryOrDeadLetter(job, STALE_REASON, at, []);
          assert used == 0;
          assert RivaledBatches(cfg, before.st, []) == before.st;
          if outcome == Retry {
            tally := tally.(retried := tally.retried + 1);
          } else if outcome == DeadLetter {
            tally := tally.(deadLettered := tally.deadLettered + 1);
          }
        }
        assert Recovery(store, tally) == SweepOne(cfg, before, job, at);
      }
      StoreDistinct(old(store));
      RecoveryContract(cfg, old(store), now, stale, at);
    }

    /** Reserve and acknowledge at once: the oldest job is gone from every list. */
    method Dequeue(clock: real) returns (r: Option<Job>)
      requires Valid()
      modifies this`store
      ensures Valid()
      ensures old(store).pending == [] ==> r == None && store == old(store)
      ensures old(store).pending != [] ==>
        && r == Some(old(store).pending[0])
        && store.pending == old(store).pending[1..] && store.processing == old(store).processing
        && store.dead == old(store).dead && store.leases == old(store).leases - {r.value}
        && store.completed == old(store).completed + {r.value.id}
    {
      r := Reserve(clock);
      if r.Some? {
        ReserveThenAck(cfg, old(store), clock);
        var removed := Acknowledge(r.value);
      }
    }
  }

  /** An acknowledgement undoes the reservation, up to the completion marker and the head of pending. */
  lemma ReserveThenAck(cfg: Config, st: Store, clock: real)
    requires StoreOk(cfg, st) && st.pending != []
    ensures var job := st.pending[0];
      var t := Ack(Lease(Move(st), job, clock + cfg.visibility), job);
      && t.processing == st.processing && t.leases == st.leases - {job}
      && t.pending == st.pending[1..] && t.dead == st.dead && t.completed == st.completed + {job.id}
  {
    MoveOk(cfg, st);
    WithoutLast(st.processing, st.pending[0]);
  }

  /** What processing a job leads to. */
  datatype Work = Done | Raised(reason: string)

  class Worker {
    const service: Service
    const recoveryInterval: real
    var lastRecoveryAt: real

    constructor (service: Service, recoveryInterval: real)
      ensures this.service == service && lastRecoveryAt == 0.0
      ensures this.recoveryInterval == if recoveryInterval > 0.01 then recoveryInterval else 0.01
    {
      this.service := service;
      this.recoveryInterval := if recoveryInterval > 0.01 then recoveryInterval else 0.01;
      lastRecoveryAt := 0.0;
    }

    method RecoverStaleJobs(mono: real, wall: real) returns (ghost stale: seq<Job>)
      requires service.Valid() && service.cfg.visibility > 0.0
      modifies this`lastRecoveryAt, service`store
      ensures service.Valid()
      ensures mono - old(lastRecoveryAt) < recoveryInterval ==>
        service.store == old(service.store) && lastRecoveryAt == old(lastRecoveryAt)
      ensures mono - old(lastRecoveryAt) >= recoveryInterval ==>
        && lastRecoveryAt == mono
        && IsStaleList(EnsureAll(service.cfg, old(service.store), wall, old(service.store).processing), wall, stale)
        && service.store == Recovered(service.cfg, old(service.store), wall, stale, wall).st
    {
      stale := [];
      if mono - lastRecoveryAt < recoveryInterval { return; }
      var tally, listed := service.RecoverStale(wall, wall);
      stale := listed;
      lastRecoveryAt := mono;
    }

    /**
     * One turn of an undisturbed worker. Whatever the job does, the worker leaves processing as
     * recovery left it: the reserved job is acknowledged, retried once more or dead-lettered,
     * and a job already marked completed is discarded without being processed. The clock is read
     * for the scan, the lease and the failure.
     */
    method RunOnce(mono: real, scanAt: real, leaseAt: real, failAt: real, work: Work)
      returns (worked: bool, ghost recovered: Store, ghost stale: seq<Job>)
      requires service.Valid() && service.cfg.visibility > 0.0
      modifies this`lastRecoveryAt, service`store
      ensures service.Valid()
      ensures mono - old(lastRecoveryAt) < recoveryInterval ==>
        recovered == old(service.store) && lastRecoveryAt == old(lastRecoveryAt)
      ensures mono - old(lastRecoveryAt) >= recoveryInterval ==>
        && lastRecoveryAt == mono
        && IsStaleList(EnsureAll(service.cfg, old(service.store), scanAt, old(service.store).processing), scanAt, stale)
        && recovered == Recovered(service.cfg, old(service.store), scanAt, stale, scanAt).st
      ensures worked == (recovered.pending != [])
      ensures !worked ==> service.store == recovered
      ensures worked ==>
        TurnOutcome(service.cfg, recovered, service.store, if work.Done? then None else Some(work.reason), failAt)
    {
      ghost var listed := RecoverStaleJobs(mono, scanAt);
      stale := listed;
      recovered := service.store;
      var reservation := service.Reserve(leaseAt);
      if reservation.None? { return false, recovered, stale; }
      var job := reservation.value;
      ghost var reserved := service.store;
      MoveOk(service.cfg, recovered);
      assert recovered.leases[job := leaseAt + service.cfg.visibility] - {job} == recovered.leases - {job};
      assert ReservedFrom(recovered, reserved);
      var done := service.IsCompleted(job.id);
      if done || work.Done? {
        var removed := service.Acknowledge(job);
        EndsWell(service.cfg, recovered, reserved, if work.Done? then None else Some(work.reason), failAt);
      } else {
        var outcome, used := service.RetryOrDeadLetter(job, work.reason, failAt, []);
        assert used == 0 && RivaledBatches(service.cfg, reserved, []) == reserved;
        EndsInRetry(service.cfg, recovered, reserved, work.reason, failAt);
      }
      worked := true;
    }
  }
}
