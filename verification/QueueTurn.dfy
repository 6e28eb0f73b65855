/** What one turn of a worker makes of the store, whether seen as one call or as single commands. */
module QueueTurn {
  import opened Wrappers
  import opened QueueStore

  /** What a turn makes of the store it began with. */
  ghost predicate TurnOutcome(cfg: Config, before: Store, after: Store, failure: Option<string>, at: real)
    requires before.pending != []
  {
    var job := before.pending[0];
    && after.processing == before.processing && after.leases == before.leases - {job}
    && if job.id in before.completed || failure.None? then
         && after.pending == before.pending[1..] && after.dead == before.dead
         && after.completed == before.completed + {job.id}
       else
         && after.completed == before.completed
         && if job.attempts < cfg.maxRetries then
              && after.dead == before.dead
              && |after.pending| == |before.pending| && after.pending[..|before.pending| - 1] == before.pending[1..]
              && IsRetryOf(after.pending[|before.pending| - 1], job, failure.value, at)
            else
              && after.pending == before.pending[1..]
              && |after.dead| == |before.dead| + 1 && after.dead[..|before.dead|] == before.dead
              && IsRetryOf(after.dead[|before.dead|], job, failure.value, at)
  }

  /** The store after the reservation of the oldest job. */
  ghost predicate ReservedFrom(before: Store, m: Store)
    requires before.pending != []
  {
    var job := before.pending[0];
    && m.pending == before.pending[1..] && m.processing == before.processing + [job] && m.dead == before.dead
    && m.leases - {job} == before.leases - {job} && m.completed == before.completed
    && job !in before.processing
  }

  lemma EndsWell(cfg: Config, before: Store, m: Store, failure: Option<string>, at: real)
    requires before.pending != [] && ReservedFrom(before, m)
    requires before.pending[0].id in before.completed || failure.None?
    ensures TurnOutcome(cfg, before, Ack(m, before.pending[0]), failure, at)
  {
    WithoutLast(before.processing, before.pending[0]);
  }

  lemma EndsInRetry(cfg: Config, before: Store, m: Store, reason: string, at: real)
    requires before.pending != [] && ReservedFrom(before, m) && before.pending[0].id !in before.completed
    ensures TurnOutcome(cfg, before, Requeue(cfg, m, before.pending[0], Retried(before.pending[0], reason, at)), Some(reason), at)
  {
    var job := before.pending[0];
    WithoutLast(before.processing, job);
    RetriedIs(job, reason, at);
  }
}
