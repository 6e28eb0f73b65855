/**
 * The Redis keys behind one recoverable queue, and the effect of every command or
 * MULTI block that the queue service sends to them.
 *
 * A raw list element is the JSON text of a job. Since the text is a function of the job's
 * fields and back, the model stores the job itself. The pending, processing and dead-letter
 * keys are Redis lists; the lease key is a sorted set from raw job to deadline; the completed
 * keys are the set of job ids with a live completion marker.
 */
module QueueStore {
  import opened Wrappers

  type JobId = nat

  datatype Failure = Failure(reason: string, at: real)

  datatype Job = Job(id: JobId, body: string, attempts: nat, failure: Option<Failure>)

  datatype Config = Config(maxRetries: nat, visibility: real)

  /** `version` changes exactly when the processing list does: it is what WATCH observes. */
  datatype Store = Store(
    pending: seq<Job>,
    processing: seq<Job>,
    dead: seq<Job>,
    leases: map<Job, real>,
    completed: set<JobId>,
    version: nat)

  const EMPTY := Store([], [], [], map[], {}, 0)

  const REASON_LIMIT := 200

  const STALE_REASON := "visibility timeout exceeded"

  // ---------- commands ----------

  /** LREM key 1 x: drop the first occurrence only. */
  function Without(s: seq<Job>, x: Job): seq<Job> {
    if s == [] then [] else if s[0] == x then s[1..] else [s[0]] + Without(s[1..], x)
  }

  /** LMOVE pending processing LEFT RIGHT; the caller has seen a nonempty list. */
  function Move(st: Store): Store
    requires st.pending != []
  {
    st.(pending := st.pending[1..],
        processing := st.processing + [st.pending[0]],
        version := st.version + 1)
  }

  /** LREM from processing together with ZREM from the leases. */
  function Drop(st: Store, job: Job): Store {
    st.(processing := Without(st.processing, job),
        leases := st.leases - {job},
        version := if job in st.processing then st.version + 1 else st.version)
  }

  /** The MULTI block of an acknowledgement. */
  function Ack(st: Store, job: Job): Store {
    Drop(st, job).(completed := st.completed + {job.id})
  }

  function Retried(job: Job, reason: string, at: real): Job {
    job.(attempts := job.attempts + 1,
         failure := Some(Failure(if |reason| > REASON_LIMIT then reason[..REASON_LIMIT] else reason, at)))
  }

  /**
   * What a retry promises about the job it pushes: the same id and contents, one attempt more, the
   * first 200 characters of the reason, and the time.
   */
  predicate IsRetryOf(next: Job, job: Job, reason: string, at: real) {
    && next.id == job.id && next.body == job.body && next.attempts == job.attempts + 1
    && next.failure.Some? && next.failure.value.at == at
    && next.failure.value.reason <= reason
    && |next.failure.value.reason| == (if |reason| < 200 then |reason| else 200)
  }

  lemma RetriedIs(job: Job, reason: string, at: real)
    ensures IsRetryOf(Retried(job, reason, at), job, reason, at)
  {
  }

  /** The MULTI block of a retry: the job leaves processing and its successor is pushed. */
  function Requeue(cfg: Config, st: Store, job: Job, next: Job): Store {
    var rest := Drop(st, job);
    if next.attempts <= cfg.maxRetries
    then rest.(pending := rest.pending + [next])
    else rest.(dead := rest.dead + [next])
  }

  function Lease(st: Store, job: Job, deadline: real): Store {
    st.(leases := st.leases[job := deadline])
  }

  function Unlease(st: Store, job: Job): Store {
    st.(leases := st.leases - {job})
  }

  // ---------- weighted sums over lists ----------

  function Total(s: seq<Job>, weight: Job -> nat): nat {
    if s == [] then 0 else weight(s[0]) + Total(s[1..], weight)
  }

  lemma {:induction false} TotalConcat(a: seq<Job>, b: seq<Job>, weight: Job -> nat)
    ensures Total(a + b, weight) == Total(a, weight) + Total(b, weight)
  {
    if a == [] {
      assert a + b == b;
    } else {
      assert (a + b)[1..] == a[1..] + b;
      TotalConcat(a[1..], b, weight);
    }
  }

  lemma TotalOne(x: Job, weight: Job -> nat)
    ensures Total([x], weight) == weight(x)
  {
    assert [x][1..] == [];
  }

  lemma {:induction false} TotalWithout(s: seq<Job>, x: Job, weight: Job -> nat)
    requires x in s
    ensures Total(s, weight) == Total(Without(s, x), weight) + weight(x)
  {
    if s[0] != x {
      TotalWithout(s[1..], x, weight);
      assert ([s[0]] + Without(s[1..], x))[1..] == Without(s[1..], x);
    }
  }

  lemma {:induction false} WithoutAbsent(s: seq<Job>, x: Job)
    requires x !in s
    ensures Without(s, x) == s
  {
    if s != [] {
      WithoutAbsent(s[1..], x);
    }
  }

  lemma {:induction false} WithoutMembers(s: seq<Job>, x: Job)
    ensures forall j :: j in Without(s, x) ==> j in s
    ensures forall j :: j in s && j != x ==> j in Without(s, x)
  {
    if s != [] {
      WithoutMembers(s[1..], x);
    }
  }

  lemma {:induction false} WithoutLast(s: seq<Job>, x: Job)
    requires x !in s
    ensures Without(s + [x], x) == s
  {
    if s == [] {
      assert [] + [x] == [x];
    } else {
      assert (s + [x])[1..] == s[1..] + [x];
      WithoutLast(s[1..], x);
    }
  }

  // ---------- copies of one job id ----------

  function HasId(id: JobId): Job -> nat {
    (j: Job) => if j.id == id then 1 else 0
  }

  /** How many list elements, over the three lists, carry this job id. */
  function Copies(st: Store, id: JobId): nat {
    Total(st.pending, HasId(id)) + Total(st.processing, HasId(id)) + Total(st.dead, HasId(id))
  }

  lemma {:induction false} TotalZero(s: seq<Job>, id: JobId)
    requires Total(s, HasId(id)) == 0
    ensures forall j :: j in s ==> j.id != id
  {
    if s != [] {
      TotalZero(s[1..], id);
      assert forall j :: j in s ==> j == s[0] || j in s[1..];
    }
  }

  lemma {:induction false} TotalMember(s: seq<Job>, j: Job)
    requires j in s
    ensures Total(s, HasId(j.id)) >= 1
  {
    if s[0] != j {
      TotalMember(s[1..], j);
    }
  }

  ghost predicate OnList(st: Store, j: Job) {
    j in st.pending || j in st.processing || j in st.dead
  }

  ghost predicate OneCopy(st: Store) {
    forall id: JobId :: Copies(st, id) <= 1
  }

  /** LREM of a raw job removes its only copy when it is in processing, and nothing otherwise. */
  lemma DropTotals(st: Store, job: Job)
    requires OneCopy(st)
    ensures forall id: JobId ::
      Copies(Drop(st, job), id) == Copies(st, id) - if job in st.processing && id == job.id then 1 else 0
    ensures job in st.processing ==> forall j :: OnList(Drop(st, job), j) ==> j.id != job.id
    ensures forall j :: OnList(Drop(st, job), j) ==> OnList(st, j)
    ensures forall j :: j in Drop(st, job).processing ==> j in st.processing
    ensures forall j :: j in st.processing && j != job ==> j in Drop(st, job).processing
    ensures job !in st.processing ==> Drop(st, job).processing == st.processing
  {
    var d := Drop(st, job);
    WithoutMembers(st.processing, job);
    if job in st.processing {
      forall id: JobId
        ensures Total(st.processing, HasId(id)) == Total(d.processing, HasId(id)) + if id == job.id then 1 else 0
      {
        TotalWithout(st.processing, job, HasId(id));
      }
      assert Copies(st, job.id) <= 1;
      TotalZero(d.pending, job.id);
      TotalZero(d.processing, job.id);
      TotalZero(d.dead, job.id);
    } else {
      WithoutAbsent(st.processing, job);
    }
  }

  /** A retry replaces the only copy of the id by its successor. */
  lemma RequeueTotals(cfg: Config, st: Store, job: Job, next: Job)
    requires OneCopy(st) && job in st.processing && next.id == job.id
    ensures forall id: JobId :: Copies(Requeue(cfg, st, job, next), id) == Copies(st, id)
    ensures forall j :: OnList(Requeue(cfg, st, job, next), j) ==> j == next || (OnList(st, j) && j.id != job.id)
  {
    DropTotals(st, job);
    var d := Drop(st, job);
    var t := Requeue(cfg, st, job, next);
    forall id: JobId
      ensures Copies(t, id) == Copies(st, id)
    {
      TotalConcat(d.pending, [next], HasId(id));
      TotalConcat(d.dead, [next], HasId(id));
      TotalOne(next, HasId(id));
    }
    forall j | OnList(t, j) && j != next
      ensures OnList(st, j) && j.id != job.id
    {
      assert OnList(d, j);
    }
  }
}
