/** What one recovery scan does to the store when nothing else runs, as a function. */
module QueueRecovery {
  import opened Wrappers
  import opened QueueStore
  import opened QueueProtocol
  import opened QueueInvariant

  datatype Tally = Tally(retried: nat, deadLettered: nat, alreadyCompleted: nat)

  datatype Recovery = Recovery(st: Store, tally: Tally)

  const NONE := Tally(0, 0, 0)

  /** A lease for every listed job that has none. */
  function EnsureAll(cfg: Config, st: Store, now: real, todo: seq<Job>): Store
    decreases |todo|
  {
    if todo == [] then st
    else if todo[0] in st.leases then EnsureAll(cfg, st, now, todo[1..])
    else EnsureAll(cfg, Lease(st, todo[0], now + cfg.visibility), now, todo[1..])
  }

  function SweepOne(cfg: Config, r: Recovery, job: Job, at: real): Recovery {
    var next := Retried(job, STALE_REASON, at);
    if job.id in r.st.completed then
      Recovery(Drop(r.st, job), r.tally.(alreadyCompleted := r.tally.alreadyCompleted + 1))
    else if job !in r.st.processing then
      r.(st := Unlease(r.st, job))
    else if next.attempts <= cfg.maxRetries then
      Recovery(Requeue(cfg, r.st, job, next), r.tally.(retried := r.tally.retried + 1))
    else
      Recovery(Requeue(cfg, r.st, job, next), r.tally.(deadLettered := r.tally.deadLettered + 1))
  }

  function SweepAll(cfg: Config, r: Recovery, todo: seq<Job>, at: real): Recovery
    decreases |todo|
  {
    if todo == [] then r else SweepAll(cfg, SweepOne(cfg, r, todo[0], at), todo[1..], at)
  }

  function Recovered(cfg: Config, st: Store, now: real, stale: seq<Job>, at: real): Recovery {
    SweepAll(cfg, Recovery(EnsureAll(cfg, st, now, st.processing), NONE), stale, at)
  }

  // ---------- the effect, stated without the loops ----------

  ghost predicate Distinct(s: seq<Job>) {
    forall i, k :: 0 <= i < k < |s| ==> s[i] != s[k]
  }

  /** The elements of `s` that are not in `gone`, in order. */
  function Keep(s: seq<Job>, gone: seq<Job>): (r: seq<Job>)
    ensures forall j :: j in r <==> j in s && j !in gone
  {
    if s == [] then [] else (if s[0] in gone then [] else [s[0]]) + Keep(s[1..], gone)
  }

  lemma {:induction false} KeepNone(s: seq<Job>)
    ensures Keep(s, []) == s
  {
    if s != [] { KeepNone(s[1..]); }
  }

  lemma {:induction false} KeepAfterWithout(s: seq<Job>, x: Job, gone: seq<Job>)
    requires Distinct(s)
    ensures Distinct(Without(s, x))
    ensures Keep(Without(s, x), gone) == Keep(s, [x] + gone)
  {
    if s != [] {
      WithoutMembers(s[1..], x);
      KeepAfterWithout(s[1..], x, gone);
      if s[0] == x {
        assert x !in s[1..] by { assert forall k :: 0 < k < |s| ==> s[0] != s[k]; }
        WithoutAbsent(s[1..], x);
      } else {
        assert Without(s, x) == [s[0]] + Without(s[1..], x);
        assert Without(s, x)[1..] == Without(s[1..], x);
      }
    }
  }

  predicate Taken(cfg: Config, st: Store, job: Job, dead: bool) {
    job.id !in st.completed && job in st.processing && dead == (job.attempts + 1 > cfg.maxRetries)
  }

  /** The retried forms of the listed jobs that were in processing and not completed. */
  function Successors(cfg: Config, st: Store, todo: seq<Job>, at: real, dead: bool): seq<Job> {
    if todo == [] then []
    else
      (if Taken(cfg, st, todo[0], dead) then [Retried(todo[0], STALE_REASON, at)] else [])
      + Successors(cfg, st, todo[1..], at, dead)
  }

  /** `next` is a listed job that was in processing and not completed, retried for its timeout. */
  ghost predicate IsRecovered(cfg: Config, st: Store, todo: seq<Job>, next: Job, at: real, dead: bool) {
    exists job :: job in todo && job in st.processing && job.id !in st.completed
      && (job.attempts < cfg.maxRetries <==> !dead)
      && IsRetryOf(next, job, "visibility timeout exceeded", at)
  }

  lemma {:induction false} SuccessorsAre(cfg: Config, st: Store, todo: seq<Job>, at: real, dead: bool)
    ensures forall next :: next in Successors(cfg, st, todo, at, dead) ==> IsRecovered(cfg, st, todo, next, at, dead)
  {
    if todo != [] {
      SuccessorsAre(cfg, st, todo[1..], at, dead);
      forall next | next in Successors(cfg, st, todo, at, dead)
        ensures IsRecovered(cfg, st, todo, next, at, dead)
      {
        if next in Successors(cfg, st, todo[1..], at, dead) {
          var job :| job in todo[1..] && job in st.processing && job.id !in st.completed
            && (job.attempts < cfg.maxRetries <==> !dead) && IsRetryOf(next, job, "visibility timeout exceeded", at);
          assert job in todo;
        } else {
          RetriedIs(todo[0], STALE_REASON, at);
          assert todo[0] in todo && next == Retried(todo[0], STALE_REASON, at);
        }
      }
    }
  }

  /** The listed jobs with a live completion marker. */
  function Finished(st: Store, todo: seq<Job>): seq<Job> {
    if todo == [] then []
    else (if todo[0].id in st.completed then [todo[0]] else []) + Finished(st, todo[1..])
  }

  lemma {:induction false} FinishedAgree(st: Store, st': Store, todo: seq<Job>)
    requires st.completed == st'.completed
    ensures Finished(st, todo) == Finished(st', todo)
  {
    if todo != [] { FinishedAgree(st, st', todo[1..]); }
  }

  lemma {:induction false} SuccessorsAgree(cfg: Config, st: Store, st': Store, todo: seq<Job>, at: real, dead: bool)
    requires st.completed == st'.completed
    requires forall j :: j in todo ==> (j in st.processing <==> j in st'.processing)
    ensures Successors(cfg, st, todo, at, dead) == Successors(cfg, st', todo, at, dead)
  {
    if todo != [] {
      SuccessorsAgree(cfg, st, st', todo[1..], at, dead);
    }
  }

  ghost predicate SweepEffect(cfg: Config, r: Recovery, todo: seq<Job>, at: real, t: Recovery) {
    && t.st.processing == Keep(r.st.processing, todo)
    && t.st.leases == r.st.leases - (set j | j in todo)
    && t.st.pending == r.st.pending + Successors(cfg, r.st, todo, at, false)
    && t.st.dead == r.st.dead + Successors(cfg, r.st, todo, at, true)
    && t.st.completed == r.st.completed
    && t.tally.retried == r.tally.retried + |Successors(cfg, r.st, todo, at, false)|
    && t.tally.deadLettered == r.tally.deadLettered + |Successors(cfg, r.st, todo, at, true)|
    && t.tally.alreadyCompleted == r.tally.alreadyCompleted + |Finished(r.st, todo)|
  }

  lemma SuccessorsOne(cfg: Config, st: Store, job: Job, at: real, dead: bool)
    ensures Successors(cfg, st, [job], at, dead)
         == if Taken(cfg, st, job, dead) then [Retried(job, STALE_REASON, at)] else []
  {
    assert [job][1..] == [];
    assert Successors(cfg, st, [], at, dead) == [];
  }

  lemma OneEffect(cfg: Config, r: Recovery, job: Job, at: real)
    requires Distinct(r.st.processing)
    ensures SweepEffect(cfg, r, [job], at, SweepOne(cfg, r, job, at))
    ensures Distinct(SweepOne(cfg, r, job, at).st.processing)
    ensures SweepOne(cfg, r, job, at).st.processing == Without(r.st.processing, job)
  {
    OneProcessing(r.st.processing, job);
    OneTaken(cfg, r, job, at);
    OneDestination(cfg, r, job, at);
  }

  lemma OneTaken(cfg: Config, r: Recovery, job: Job, at: real)
    requires job !in r.st.processing ==> Without(r.st.processing, job) == r.st.processing
    ensures var t := SweepOne(cfg, r, job, at).st;
      && t.processing == Without(r.st.processing, job)
      && t.leases == r.st.leases - (set j | j in [job])
      && t.completed == r.st.completed
  {
    assert (set j | j in [job]) == {job};
  }

  lemma OneDestination(cfg: Config, r: Recovery, job: Job, at: real)
    ensures var t := SweepOne(cfg, r, job, at);
      && t.st.pending == r.st.pending + Successors(cfg, r.st, [job], at, false)
      && t.st.dead == r.st.dead + Successors(cfg, r.st, [job], at, true)
      && t.tally.retried == r.tally.retried + |Successors(cfg, r.st, [job], at, false)|
      && t.tally.deadLettered == r.tally.deadLettered + |Successors(cfg, r.st, [job], at, true)|
      && t.tally.alreadyCompleted == r.tally.alreadyCompleted + |Finished(r.st, [job])|
  {
    assert [job][1..] == [] && Finished(r.st, []) == [];
    SuccessorsOne(cfg, r.st, job, at, false);
    SuccessorsOne(cfg, r.st, job, at, true);
  }

  lemma OneProcessing(s: seq<Job>, job: Job)
    requires Distinct(s)
    ensures Distinct(Without(s, job)) && Without(s, job) == Keep(s, [job])
    ensures job !in s ==> Without(s, job) == s
  {
    KeepAfterWithout(s, job, []);
    assert [job] + [] == [job];
    KeepNone(Without(s, job));
    if job !in s { WithoutAbsent(s, job); }
  }

  lemma {:induction false} SweepAllEffect(cfg: Config, r: Recovery, todo: seq<Job>, at: real)
    requires Distinct(r.st.processing) && Distinct(todo)
    ensures SweepEffect(cfg, r, todo, at, SweepAll(cfg, r, todo, at))
    decreases |todo|
  {
    if todo == [] {
      KeepNone(r.st.processing);
    } else {
      var m := SweepOne(cfg, r, todo[0], at);
      OneEffect(cfg, r, todo[0], at);
      SweepAllEffect(cfg, m, todo[1..], at);
      EffectsCompose(cfg, r, todo, at, m, SweepAll(cfg, m, todo[1..], at));
    }
  }

  lemma EffectsCompose(cfg: Config, r: Recovery, todo: seq<Job>, at: real, m: Recovery, t: Recovery)
    requires todo != [] && Distinct(todo) && Distinct(r.st.processing)
    requires SweepEffect(cfg, r, [todo[0]], at, m) && m.st.processing == Without(r.st.processing, todo[0])
    requires SweepEffect(cfg, m, todo[1..], at, t)
    ensures SweepEffect(cfg, r, todo, at, t)
  {
    var job := todo[0];
    var rest := todo[1..];
    assert todo == [job] + rest;
    assert t.st.processing == Keep(r.st.processing, todo) by {
      KeepAfterWithout(r.st.processing, job, rest);
    }
    assert t.st.leases == r.st.leases - (set j | j in todo) by {
      assert (set j | j in todo) == {job} + (set j | j in rest);
      assert (set j | j in [job]) == {job};
    }
    assert |Finished(r.st, todo)| == |Finished(r.st, [job])| + |Finished(m.st, rest)| by {
      FinishedAgree(r.st, m.st, rest);
      assert [job][1..] == [] && Finished(r.st, []) == [];
    }
    SuccessorsSplit(cfg, r.st, m.st, todo, at, false);
    SuccessorsSplit(cfg, r.st, m.st, todo, at, true);
    Associate(r.st.pending, Successors(cfg, r.st, [job], at, false), Successors(cfg, m.st, rest, at, false));
    Associate(r.st.dead, Successors(cfg, r.st, [job], at, true), Successors(cfg, m.st, rest, at, true));
  }

  lemma Associate(a: seq<Job>, b: seq<Job>, c: seq<Job>)
    ensures (a + b) + c == a + (b + c)
  {
  }

  lemma SuccessorsSplit(cfg: Config, st: Store, st': Store, todo: seq<Job>, at: real, dead: bool)
    requires todo != [] && Distinct(todo)
    requires st'.completed == st.completed && st'.processing == Without(st.processing, todo[0])
    ensures Successors(cfg, st, todo, at, dead)
         == Successors(cfg, st, [todo[0]], at, dead) + Successors(cfg, st', todo[1..], at, dead)
  {
    WithoutMembers(st.processing, todo[0]);
    forall j | j in todo[1..]
      ensures j in st.processing <==> j in st'.processing
    {
      assert j != todo[0];
    }
    SuccessorsAgree(cfg, st, st', todo[1..], at, dead);
    SuccessorsHead(cfg, st, todo, at, dead);
  }

  lemma SuccessorsHead(cfg: Config, st: Store, todo: seq<Job>, at: real, dead: bool)
    requires todo != []
    ensures Successors(cfg, st, todo, at, dead)
         == Successors(cfg, st, [todo[0]], at, dead) + Successors(cfg, st, todo[1..], at, dead)
  {
    assert [todo[0]][1..] == [];
  }

  lemma {:induction false} EnsureAllEffect(cfg: Config, st: Store, now: real, todo: seq<Job>)
    ensures var t := EnsureAll(cfg, st, now, todo);
      && t == st.(leases := t.leases)
      && (forall j :: j in t.leases <==> j in st.leases || j in todo)
      && (forall j :: j in t.leases ==> t.leases[j] == if j in st.leases then st.leases[j] else now + cfg.visibility)
    decreases |todo|
  {
    if todo != [] {
      EnsureAllEffect(cfg, if todo[0] in st.leases then st else Lease(st, todo[0], now + cfg.visibility), now, todo[1..]);
    }
  }

  lemma {:induction false} TwoCopies(s: seq<Job>, i: nat, k: nat)
    requires i < k < |s| && s[i].id == s[k].id
    ensures Total(s, HasId(s[k].id)) >= 2
  {
    if i == 0 {
      TotalMember(s[1..], s[k]);
    } else {
      TwoCopies(s[1..], i - 1, k - 1);
    }
  }

  lemma ProcessingDistinct(cfg: Config, s: Sys)
    requires Core(cfg, s)
    ensures Distinct(s.st.processing)
  {
    forall i, k | 0 <= i < k < |s.st.processing|
      ensures s.st.processing[i] != s.st.processing[k]
    {
      if s.st.processing[i] == s.st.processing[k] { TwoCopies(s.st.processing, i, k); }
    }
  }

  /** Was the job's lease, or its lack of one, such that a scan at `now` leaves it alone? */
  predicate Unexpired(st: Store, now: real, job: Job) {
    job in st.leases ==> st.leases[job] > now
  }

  /**
   * The recovery contract of one undisturbed scan at `now`: no lease at or before `now`
   * remains, every job in processing has a later one, unexpired jobs stay as they were and in
   * order, and pending and dead-letter grow by exactly the jobs the tally reports, in scan order.
   */
  lemma RecoveryContract(cfg: Config, st: Store, now: real, stale: seq<Job>, at: real)
    requires cfg.visibility > 0.0 && Distinct(st.processing)
    requires IsStaleList(EnsureAll(cfg, st, now, st.processing), now, stale)
    ensures var t := Recovered(cfg, st, now, stale, at);
      && (forall j :: j in t.st.leases ==> t.st.leases[j] > now)
      && (forall j :: j in t.st.processing ==> j in t.st.leases)
      && (forall j :: j in t.st.processing <==> j in st.processing && Unexpired(st, now, j))
      && t.st.processing == Keep(st.processing, stale)
      && (forall j :: j in st.leases && st.leases[j] > now ==> j in t.st.leases && t.st.leases[j] == st.leases[j])
      && (forall j :: j in st.processing && j !in st.leases ==> t.st.leases[j] == now + cfg.visibility)
      && t.st.pending == st.pending + Successors(cfg, st, stale, at, false)
      && t.st.dead == st.dead + Successors(cfg, st, stale, at, true)
      && |t.st.pending| == |st.pending| + t.tally.retried
      && |t.st.dead| == |st.dead| + t.tally.deadLettered
      && t.tally.alreadyCompleted == |Finished(st, stale)|
      && t.st.completed == st.completed
  {
    var e := EnsureAll(cfg, st, now, st.processing);
    EnsureAllEffect(cfg, st, now, st.processing);
    SweepAllEffect(cfg, Recovery(e, NONE), stale, at);
    FinishedAgree(st, e, stale);
    SuccessorsAgree(cfg, st, e, stale, at, false);
    SuccessorsAgree(cfg, st, e, stale, at, true);
  }

  // ---------- there always is a stale list ----------

  /** A finite set of leased jobs has one with the earliest deadline. */
  lemma {:induction false} EarliestExists(leases: map<Job, real>, rest: set<Job>)
    requires rest != {} && rest <= leases.Keys
    ensures exists m :: m in rest && forall j :: j in rest ==> leases[m] <= leases[j]
    decreases |rest|
  {
    var x :| x in rest;
    if rest == {x} {
      assert forall j :: j in rest ==> leases[x] <= leases[j];
    } else {
      var fewer := rest - {x};
      EarliestExists(leases, fewer);
      var m :| m in fewer && forall j :: j in fewer ==> leases[m] <= leases[j];
      var best := if leases[x] <= leases[m] then x else m;
      assert best in rest && forall j :: j in rest ==> leases[best] <= leases[j];
    }
  }

  lemma {:induction false} SortedByDeadline(leases: map<Job, real>, rest: set<Job>) returns (s: seq<Job>)
    requires rest <= leases.Keys
    ensures forall j :: j in s <==> j in rest
    ensures Distinct(s)
    ensures forall i, k :: 0 <= i < k < |s| ==> leases[s[i]] <= leases[s[k]]
    decreases |rest|
  {
    s := [];
    if rest != {} {
      EarliestExists(leases, rest);
      var m :| m in rest && forall j :: j in rest ==> leases[m] <= leases[j];
      var later := SortedByDeadline(leases, rest - {m});
      s := [m] + later;
      assert forall k :: 0 < k < |s| ==> s[k] in later;
    }
  }

  lemma StaleListExists(st: Store, now: real) returns (stale: seq<Job>)
    ensures IsStaleList(st, now, stale)
  {
    stale := SortedByDeadline(st.leases, set j | j in st.leases && st.leases[j] <= now);
  }
}
