/**
 * Admission control of the frontend: a waiting queue, a set of active users whose membership
 * lags behind the per-user session keys, and a background sweep by every pod.
 *
 * The waiting sorted set is scored by arrival time, so it is kept as the sequence in score
 * order; a session key is a deadline. A user's check is one step. A heartbeat pass is not: every
 * pod sends its commands one by one, between checks and the commands of other pods, and may fail
 * after any of them.
 */
module WaitingRoom {
  type Token = string

  const STALE_AFTER := 30.0

  datatype Config = Config(slotsPerPod: nat, sessionTtl: real)

  datatype Room = Room(
    waiting: seq<Token>,
    beats: map<Token, real>,
    active: set<Token>,
    sessions: map<Token, real>)

  datatype Status = Status(passed: bool, position: int)

  const EMPTY := Room([], map[], {}, map[])

  /** The session key exists: it has not reached its expiry. */
  predicate Live(room: Room, now: real, u: Token) {
    u in room.sessions && now < room.sessions[u]
  }

  function Capacity(cfg: Config, pods: nat): nat {
    (if pods > 1 then pods else 1) * cfg.slotsPerPod
  }

  /** ZRANK. */
  function Rank(s: seq<Token>, u: Token): (r: nat)
    requires u in s
    ensures r < |s| && s[r] == u
  {
    if s[0] == u then 0 else 1 + Rank(s[1..], u)
  }

  /** ZREM. */
  function Leave(s: seq<Token>, gone: set<Token>): (r: seq<Token>)
    ensures forall u :: u in r <==> u in s && u !in gone
  {
    if s == [] then [] else (if s[0] in gone then [] else [s[0]]) + Leave(s[1..], gone)
  }

  function Admit(cfg: Config, room: Room, u: Token, now: real): Room {
    Room(Leave(room.waiting, {u}), room.beats - {u}, room.active + {u}, room.sessions[u := now + cfg.sessionTtl])
  }

  function Check(cfg: Config, room: Room, u: Token, pods: nat, now: real): (Room, Status) {
    var free := Capacity(cfg, pods) - |room.active|;
    if Live(room, now, u) then
      (room.(sessions := room.sessions[u := now + cfg.sessionTtl]), Status(true, 0))
    else if u in room.waiting then
      if Rank(room.waiting, u) < free then (Admit(cfg, room, u, now), Status(true, 0))
      else (room.(beats := room.beats[u := now]), Status(false, Rank(room.waiting, u) + 1))
    else if free > 0 && room.waiting == [] then
      (room.(active := room.active + {u}, sessions := room.sessions[u := now + cfg.sessionTtl]), Status(true, 0))
    else
      (room.(waiting := room.waiting + [u], beats := room.beats[u := now]), Status(false, |room.waiting| + 1))
  }

  predicate Silent(room: Room, now: real, u: Token) {
    u in room.beats && 0.0 <= room.beats[u] <= now - STALE_AFTER
  }

  function SilentOnes(room: Room, now: real): set<Token> {
    set u | u in room.beats && Silent(room, now, u)
  }

  /** One pass of the heartbeat: forget active users without a key, sweep silent waiters. */
  function Heartbeat(room: Room, now: real): Room {
    var silent := SilentOnes(room, now);
    Room(Leave(room.waiting, silent), room.beats - silent,
         (set u | u in room.active && Live(room, now, u)), room.sessions)
  }

  // ---------- runs ----------

  /** Where a pod is in its heartbeat pass. */
  datatype Pass =
    | Resting
    | Checking(todo: set<Token>, expired: set<Token>) // SMEMBERS done, one EXISTS per member next
    | Reading                                         // the clock is read next
    | Ranging(now: real)                              // ZRANGEBYSCORE next
    | Unqueueing(listed: set<Token>)                  // ZREM from the queue next
    | Unbeating(listed: set<Token>)                   // ZREM from the heartbeat set next

  type Pod = nat

  datatype Event =
    | Tick(to: real)
    | Pods(n: nat)
    | Visit(u: Token)
    | Members(p: Pod)
    | Exists(p: Pod, m: Token)
    | Forget(p: Pod)           // SREM of the members without a key
    | ReadClock(p: Pod)
    | Range(p: Pod)
    | Unqueue(p: Pod)
    | Unbeat(p: Pod)
    | Fail(p: Pod)             // a Redis error ends the pass, or the pod dies

  datatype Sys = Sys(room: Room, clock: real, pods: nat, passes: map<Pod, Pass>)

  function Init(pods: nat): Sys {
    Sys(EMPTY, 0.0, pods, map[])
  }

  function PassOf(s: Sys, p: Pod): Pass {
    if p in s.passes then s.passes[p] else Resting
  }

  function At(s: Sys, p: Pod, pass: Pass): Sys {
    s.(passes := s.passes[p := pass])
  }

  /** The one command of its pass the pod sends next, if that is what the event says. */
  function Command(s: Sys, p: Pod, e: Event): Sys {
    match (PassOf(s, p), e)
    case (Resting, Members(_)) => At(s, p, Checking(s.room.active, {}))
    case (Checking(todo, expired), Exists(_, m)) =>
      if m !in todo then s
      else At(s, p, Checking(todo - {m}, if Live(s.room, s.clock, m) then expired else expired + {m}))
    case (Checking(todo, expired), Forget(_)) =>
      if todo != {} then s
      else At(s, p, Reading).(room := s.room.(active := s.room.active - expired))
    case (Reading, ReadClock(_)) => At(s, p, Ranging(s.clock))
    case (Ranging(now), Range(_)) => At(s, p, Unqueueing(SilentOnes(s.room, now)))
    case (Unqueueing(listed), Unqueue(_)) =>
      At(s, p, Unbeating(listed)).(room := s.room.(waiting := Leave(s.room.waiting, listed)))
    case (Unbeating(listed), Unbeat(_)) =>
      At(s, p, Resting).(room := s.room.(beats := s.room.beats - listed))
    case _ => s
  }

  function Apply(cfg: Config, s: Sys, e: Event): Sys {
    match e
    case Tick(to) => if to >= s.clock then s.(clock := to) else s
    case Pods(n) => s.(pods := n)
    case Visit(u) => s.(room := Check(cfg, s.room, u, s.pods, s.clock).0)
    case Fail(p) => At(s, p, Resting)
    case Exists(p, _) => Command(s, p, e)
    case _ => Command(s, e.p, e)
  }

  function Run(cfg: Config, s: Sys, es: seq<Event>): Sys {
    if es == [] then s else Apply(cfg, Run(cfg, s, es[..|es| - 1]), es[|es| - 1])
  }

  lemma {:induction false} RunConcat(cfg: Config, s: Sys, a: seq<Event>, b: seq<Event>)
    ensures Run(cfg, s, a + b) == Run(cfg, Run(cfg, s, a), b)
  {
    if b == [] {
      assert a + b == a;
    } else {
      var n := |b| - 1;
      assert (a + b)[..|a + b| - 1] == a + b[..n];
      RunConcat(cfg, s, a, b[..n]);
    }
  }

  /** A run told state by state. */
  lemma {:induction false} Traced(cfg: Config, states: seq<Sys>, es: seq<Event>)
    requires |states| == |es| + 1
    requires forall i :: 0 <= i < |es| ==> states[i + 1] == Apply(cfg, states[i], es[i])
    ensures Run(cfg, states[0], es) == states[|es|]
    decreases |es|
  {
    if es != [] { Traced(cfg, states[..|es|], es[..|es| - 1]); }
  }

  /** Every step of the run, in the state it is taken, meets the condition. */
  ghost predicate Along(cfg: Config, s: Sys, es: seq<Event>, ok: (Sys, Event) -> bool) {
    es != [] ==> Along(cfg, s, es[..|es| - 1], ok) && ok(Run(cfg, s, es[..|es| - 1]), es[|es| - 1])
  }

  /** Every state of the run, the first included, has the property. */
  ghost predicate Always(cfg: Config, s: Sys, es: seq<Event>, good: Sys -> bool) {
    (es != [] ==> Always(cfg, s, es[..|es| - 1], good)) && good(Run(cfg, s, es))
  }

  /** A property that a step keeps exactly when a condition holds is kept by exactly such runs. */
  lemma {:induction false} AlwaysIffAlong(
    cfg: Config, s: Sys, es: seq<Event>, good: Sys -> bool, ok: (Sys, Event) -> bool)
    requires good(s)
    requires forall x, e :: good(x) ==> (good(Apply(cfg, x, e)) <==> ok(x, e))
    ensures Always(cfg, s, es, good) <==> Along(cfg, s, es, ok)
  {
    if es != [] { AlwaysIffAlong(cfg, s, es[..|es| - 1], good, ok); }
  }

  // ---------- what every interleaving keeps ----------

  ghost predicate Distinct(s: seq<Token>) {
    forall i, k :: 0 <= i < k < |s| ==> s[i] != s[k]
  }

  /** Nobody waits twice, and nobody with a live session waits. */
  ghost predicate Inv(s: Sys) {
    && Distinct(s.room.waiting)
    && (forall u :: u in s.room.waiting ==> !Live(s.room, s.clock, u))
  }

  lemma {:induction false} LeaveDistinct(s: seq<Token>, gone: set<Token>)
    requires Distinct(s)
    ensures Distinct(Leave(s, gone))
  {
    if s != [] {
      LeaveDistinct(s[1..], gone);
      assert s[0] !in s[1..];
    }
  }

  /** What a pod's command leaves alone: sessions, clock and pods always, and more as it goes. */
  lemma CommandFrame(s: Sys, p: Pod, e: Event)
    ensures var t := Command(s, p, e); var pass := PassOf(s, p);
      && t.clock == s.clock && t.pods == s.pods && t.room.sessions == s.room.sessions
      && t.room.active <= s.room.active
      && (t.passes == s.passes || t.passes == s.passes[p := PassOf(t, p)])
      && t.room.waiting == (if pass.Unqueueing? && e.Unqueue? then Leave(s.room.waiting, pass.listed) else s.room.waiting)
      && t.room.beats == (if pass.Unbeating? && e.Unbeat? then s.room.beats - pass.listed else s.room.beats)
      && t.room.active == (if pass.Checking? && e.Forget? && pass.todo == {} then s.room.active - pass.expired
                           else s.room.active)
  {
  }

  predicate OfPod(e: Event) {
    !e.Tick? && !e.Pods? && !e.Visit? && !e.Fail?
  }

  lemma PodStep(cfg: Config, s: Sys, e: Event)
    requires OfPod(e)
    ensures Apply(cfg, s, e) == Command(s, e.p, e)
  {
  }

  lemma StepInv(cfg: Config, s: Sys, e: Event)
    requires Inv(s)
    ensures Inv(Apply(cfg, s, e))
  {
    if OfPod(e) {
      PodStep(cfg, s, e);
      CommandFrame(s, e.p, e);
      var pass := PassOf(s, e.p);
      if pass.Unqueueing? { LeaveDistinct(s.room.waiting, pass.listed); }
    } else if e.Visit? {
      LeaveDistinct(s.room.waiting, {e.u});
    }
  }

  /** In every reachable state nobody waits twice and nobody with a live session waits. */
  lemma {:induction false} AlwaysInv(cfg: Config, s: Sys, es: seq<Event>)
    requires Inv(s)
    ensures Inv(Run(cfg, s, es))
  {
    if es != [] {
      AlwaysInv(cfg, s, es[..|es| - 1]);
      StepInv(cfg, Run(cfg, s, es[..|es| - 1]), es[|es| - 1]);
    }
  }

  // ---------- who gets in ----------

  /** The slots of a room: those of one pod at least. */
  function Slots(cfg: Config, pods: nat): nat {
    (if pods == 0 then 1 else pods) * cfg.slotsPerPod
  }

  /**
   * A user who is neither live nor waiting gets in if and only if nobody waits and a slot is free;
   * otherwise the user becomes the last waiter, heard just now. Nothing else changes.
   */
  lemma NewcomerAdmittedIff(cfg: Config, s: Sys, u: Token)
    requires cfg.sessionTtl > 0.0 && u !in s.room.waiting && !Live(s.room, s.clock, u)
    ensures var t := Apply(cfg, s, Visit(u));
      && (Live(t.room, t.clock, u) <==> s.room.waiting == [] && |s.room.active| < Slots(cfg, s.pods))
      && t.room == (if Live(t.room, t.clock, u)
                    then Room([], s.room.beats, s.room.active + {u}, s.room.sessions[u := s.clock + cfg.sessionTtl])
                    else Room(s.room.waiting + [u], s.room.beats[u := s.clock], s.room.active, s.room.sessions))
      && t == s.(room := t.room)
  {
    assert Live(Apply(cfg, s, Visit(u)).room, s.clock, u) || Apply(cfg, s, Visit(u)).room.sessions == s.room.sessions;
  }

  /** A live user's session is renewed, and nothing else changes. */
  lemma LiveRenewed(cfg: Config, s: Sys, u: Token)
    requires Live(s.room, s.clock, u)
    ensures Apply(cfg, s, Visit(u)) == s.(room := s.room.(sessions := s.room.sessions[u := s.clock + cfg.sessionTtl]))
  {
  }

  /**
   * A waiter gets in if and only if fewer wait ahead than slots are free, and then leaves queue and
   * heartbeat set and begins a session; otherwise the waiter keeps its place and is heard.
   */
  lemma WaiterAdmittedIff(cfg: Config, s: Sys, u: Token)
    requires Inv(s) && cfg.sessionTtl > 0.0 && u in s.room.waiting
    ensures var t := Apply(cfg, s, Visit(u));
      && (Live(t.room, t.clock, u) <==>
            exists i :: 0 <= i < |s.room.waiting| && s.room.waiting[i] == u && i + |s.room.active| < Slots(cfg, s.pods))
      && (Live(t.room, t.clock, u) ==>
            && (forall v :: v in t.room.waiting <==> v in s.room.waiting && v != u)
            && t.room.beats == s.room.beats - {u} && t.room.active == s.room.active + {u}
            && t.room.sessions == s.room.sessions[u := s.clock + cfg.sessionTtl])
      && (!Live(t.room, t.clock, u) ==> t.room == s.room.(beats := s.room.beats[u := s.clock]))
  {
    var i := Rank(s.room.waiting, u);
    assert s.room.waiting[i] == u && forall k :: 0 <= k < |s.room.waiting| && s.room.waiting[k] == u ==> k == i;
  }

  /**
   * Over whole runs nobody gets past a standing queue: while somebody waits, a visit admits no one
   * who was neither live nor waiting.
   */
  lemma NoBypass(cfg: Config, pods: nat, es: seq<Event>, u: Token)
    requires cfg.sessionTtl > 0.0
    requires var s := Run(cfg, Init(pods), es); s.room.waiting != [] && u !in s.room.waiting && !Live(s.room, s.clock, u)
    ensures var s := Run(cfg, Init(pods), es); var t := Run(cfg, Init(pods), es + [Visit(u)]);
      !Live(t.room, t.clock, u) && u !in t.room.active - s.room.active && t.room.waiting == s.room.waiting + [u]
  {
    NewcomerAdmittedIff(cfg, Run(cfg, Init(pods), es), u);
    assert (es + [Visit(u)])[..|es + [Visit(u)]| - 1] == es;
  }

  // ---------- silence ----------

  lemma BeatTimes(cfg: Config, s: Sys, e: Event)
    requires s.clock >= 0.0 && forall u :: u in s.room.beats ==> 0.0 <= s.room.beats[u] <= s.clock
    ensures var t := Apply(cfg, s, e);
      t.clock >= s.clock && forall u :: u in t.room.beats ==> 0.0 <= t.room.beats[u] <= t.clock
  {
    if OfPod(e) {
      PodStep(cfg, s, e);
      CommandFrame(s, e.p, e);
    }
  }

  lemma {:induction false} BeatsTimely(cfg: Config, pods: nat, es: seq<Event>)
    ensures var s := Run(cfg, Init(pods), es);
      s.clock >= 0.0 && forall u :: u in s.room.beats ==> 0.0 <= s.room.beats[u] <= s.clock
  {
    if es != [] {
      BeatsTimely(cfg, pods, es[..|es| - 1]);
      BeatTimes(cfg, Run(cfg, Init(pods), es[..|es| - 1]), es[|es| - 1]);
    }
  }

  /** In every reachable state the silent are exactly those not heard for thirty seconds. */
  lemma SilentIs(cfg: Config, pods: nat, es: seq<Event>, u: Token)
    ensures var s := Run(cfg, Init(pods), es);
      Silent(s.room, s.clock, u) <==> u in s.room.beats && s.clock - s.room.beats[u] >= 30.0
  {
    BeatsTimely(cfg, pods, es);
  }

  // ---------- capacity ----------

  /** Only an admission enlarges the active set, and never beyond the capacity it was judged by. */
  lemma StepCapacity(cfg: Config, s: Sys, e: Event)
    ensures var t := Apply(cfg, s, e);
      |t.room.active| > |s.room.active| ==>
        && |t.room.active| == |s.room.active| + 1 <= Slots(cfg, s.pods)
        && e.Visit? && Check(cfg, s.room, e.u, s.pods, s.clock).1 == Status(true, 0) && !Live(s.room, s.clock, e.u)
  {
    if OfPod(e) {
      PodStep(cfg, s, e);
      CommandFrame(s, e.p, e);
      Fewer(Apply(cfg, s, e).room.active, s.room.active);
    }
  }

  lemma Fewer(a: set<Token>, b: set<Token>)
    requires a <= b
    ensures |a| <= |b|
  {
    assert b == a + (b - a);
  }

  ghost predicate PodsHold(s: Sys, e: Event) {
    e.Pods? ==> e.n >= s.pods
  }

  lemma MorePods(cfg: Config, p: nat, q: nat)
    requires p <= q
    ensures Capacity(cfg, p) <= Capacity(cfg, q)
  {
    var a := if p > 1 then p else 1;
    var b := if q > 1 then q else 1;
    assert b * cfg.slotsPerPod == a * cfg.slotsPerPod + (b - a) * cfg.slotsPerPod;
  }

  /** While pods do not drop, the active set stays within pods times slots. */
  lemma {:induction false} CapacityHolds(cfg: Config, s: Sys, es: seq<Event>)
    requires |s.room.active| <= Slots(cfg, s.pods) && Along(cfg, s, es, (x, e) => PodsHold(x, e))
    ensures var t := Run(cfg, s, es); |t.room.active| <= Slots(cfg, t.pods)
  {
    if es != [] {
      var m := Run(cfg, s, es[..|es| - 1]);
      CapacityHolds(cfg, s, es[..|es| - 1]);
      StepCapacity(cfg, m, es[|es| - 1]);
      MorePods(cfg, m.pods, Apply(cfg, m, es[|es| - 1]).pods);
    }
  }

  // ---------- admissibility is stable ----------

  /** A waiter the next check would let in. */
  predicate Admissible(cfg: Config, s: Sys, u: Token) {
    u in s.room.waiting && Rank(s.room.waiting, u) < Capacity(cfg, s.pods) - |s.room.active|
  }

  lemma {:induction false} RankAppend(s: seq<Token>, v: Token, u: Token)
    requires u in s
    ensures Rank(s + [v], u) == Rank(s, u)
  {
    if s[0] != u {
      assert (s + [v])[1..] == s[1..] + [v];
      RankAppend(s[1..], v, u);
    }
  }

  lemma {:induction false} RankLeave(s: seq<Token>, gone: set<Token>, u: Token)
    requires u in s && u !in gone
    ensures Rank(Leave(s, gone), u) <= Rank(s, u)
  {
    if s[0] != u {
      RankLeave(s[1..], gone, u);
      var rest := Leave(s[1..], gone);
      assert s[0] !in gone ==> Leave(s, gone)[1..] == rest;
      assert s[0] in gone ==> Leave(s, gone) == rest;
    }
  }

  lemma {:induction false} LeaveAbsent(s: seq<Token>, v: Token)
    requires v !in s
    ensures Leave(s, {v}) == s
  {
    if s != [] { LeaveAbsent(s[1..], v); }
  }

  /** When one waiter leaves, those behind move up by one and those ahead keep their place. */
  lemma {:induction false} RankLeaveOne(s: seq<Token>, v: Token, u: Token)
    requires Distinct(s) && u in s && v in s && u != v
    ensures Rank(Leave(s, {v}), u) == if Rank(s, v) < Rank(s, u) then Rank(s, u) - 1 else Rank(s, u)
  {
    if s[0] == v {
      assert v !in s[1..];
      LeaveAbsent(s[1..], v);
      assert Leave(s, {v}) == s[1..];
    } else if s[0] == u {
      assert Leave(s, {v})[0] == u;
    } else {
      RankLeaveOne(s[1..], v, u);
      assert Leave(s, {v})[1..] == Leave(s[1..], {v});
    }
  }

  /** A step that neither is about u, nor drops pods, nor sweeps u out of the queue. */
  ghost predicate Harmless(s: Sys, e: Event, u: Token) {
    && (e.Visit? ==> e.u != u)
    && PodsHold(s, e)
    && (e.Unqueue? && PassOf(s, e.p).Unqueueing? ==> u !in PassOf(s, e.p).listed)
  }

  lemma StepKeepsAdmissible(cfg: Config, s: Sys, e: Event, u: Token)
    requires Inv(s) && Admissible(cfg, s, u) && Harmless(s, e, u)
    ensures Admissible(cfg, Apply(cfg, s, e), u)
  {
    match e
    case Visit(v) =>
      if v in s.room.waiting {
        RankLeaveOne(s.room.waiting, v, u);
        RanksDiffer(s.room.waiting, u, v);
      } else if !Live(s.room, s.clock, v) {
        RankAppend(s.room.waiting, v, u);
      }
    case Pods(n) => MorePods(cfg, s.pods, n);
    case Tick(_) =>
    case Fail(_) =>
    case _ => PodKeepsAdmissible(cfg, s, e, u);
  }

  lemma PodKeepsAdmissible(cfg: Config, s: Sys, e: Event, u: Token)
    requires Admissible(cfg, s, u) && Harmless(s, e, u) && OfPod(e)
    ensures Admissible(cfg, Apply(cfg, s, e), u)
  {
    var t := Apply(cfg, s, e);
    PodStep(cfg, s, e);
    CommandFrame(s, e.p, e);
    Fewer(t.room.active, s.room.active);
    if PassOf(s, e.p).Unqueueing? && e.Unqueue? { RankLeave(s.room.waiting, PassOf(s, e.p).listed, u); }
  }

  lemma RanksDiffer(s: seq<Token>, u: Token, v: Token)
    requires u in s && v in s && u != v
    ensures Rank(s, u) != Rank(s, v)
  {
    assert s[Rank(s, u)] == u && s[Rank(s, v)] == v;
  }

  /**
   * Once a waiter's rank is below the free slots it stays so through any run of other users'
   * arrivals, admissions, renewals and expiries and of all pods' heartbeats, as long as pods do not
   * drop and the waiter itself is not swept; then the waiter's next check lets it in.
   */
  lemma {:induction false} AdmissibilityStable(cfg: Config, s: Sys, es: seq<Event>, u: Token)
    requires Inv(s) && cfg.sessionTtl > 0.0 && Admissible(cfg, s, u) && Along(cfg, s, es, (x, e) => Harmless(x, e, u))
    ensures var t := Run(cfg, s, es);
      && Inv(t) && Admissible(cfg, t, u)
      && Check(cfg, t.room, u, t.pods, t.clock).1 == Status(true, 0)
      && Live(Apply(cfg, t, Visit(u)).room, t.clock, u)
  {
    if es != [] {
      var m := Run(cfg, s, es[..|es| - 1]);
      AdmissibilityStable(cfg, s, es[..|es| - 1], u);
      StepInv(cfg, m, es[|es| - 1]);
      StepKeepsAdmissible(cfg, m, es[|es| - 1], u);
    }
  }

  /**
   * Admitting v: whoever is ahead stays admissible, and whoever is behind is admissible exactly
   * as before, or more so when v was still counted as active.
   */
  lemma AdmissionSparesOthers(cfg: Config, s: Sys, v: Token, u: Token)
    requires Inv(s) && Admissible(cfg, s, v) && u in s.room.waiting && u != v
    ensures var t := Apply(cfg, s, Visit(v));
      && u in t.room.waiting
      && (Rank(s.room.waiting, u) < Rank(s.room.waiting, v) ==> Admissible(cfg, s, u) && Admissible(cfg, t, u))
      && (Rank(s.room.waiting, u) > Rank(s.room.waiting, v) ==>
            (Admissible(cfg, t, u) <==>
             Rank(s.room.waiting, u) < Capacity(cfg, s.pods) - |s.room.active| + if v in s.room.active then 1 else 0))
  {
    assert !Live(s.room, s.clock, v);
    RankLeaveOne(s.room.waiting, v, u);
    RanksDiffer(s.room.waiting, u, v);
    if v in s.room.active { assert s.room.active + {v} == s.room.active; }
  }

  function Visits(us: seq<Token>): seq<Event> {
    if us == [] then [] else Visits(us[..|us| - 1]) + [Visit(us[|us| - 1])]
  }

  /** The visit of an admissible waiter lets it in and costs nobody a session. */
  lemma AdmissibleGetsIn(cfg: Config, m: Sys, last: Token)
    requires Inv(m) && cfg.sessionTtl > 0.0 && Admissible(cfg, m, last)
    ensures var t := Apply(cfg, m, Visit(last));
      && t.clock == m.clock && t.pods == m.pods
      && Live(t.room, t.clock, last) && last in t.room.active && m.room.active <= t.room.active
      && (forall u :: Live(m.room, m.clock, u) ==> Live(t.room, t.clock, u))
  {
    assert !Live(m.room, m.clock, last);
    assert Apply(cfg, m, Visit(last)) == m.(room := Admit(cfg, m.room, last, m.clock));
  }

  lemma VisitsNext(cfg: Config, s: Sys, us: seq<Token>)
    requires us != []
    ensures Run(cfg, s, Visits(us)) == Apply(cfg, Run(cfg, s, Visits(us[..|us| - 1])), Visit(us[|us| - 1]))
  {
    assert Visits(us)[..|Visits(us)| - 1] == Visits(us[..|us| - 1]);
  }

  /** The admissible waiters get in whatever order they come back in. */
  lemma {:induction false} AnyOrderAdmits(cfg: Config, s: Sys, us: seq<Token>)
    requires Inv(s) && cfg.sessionTtl > 0.0 && Distinct(us)
    requires forall u :: u in us ==> Admissible(cfg, s, u)
    ensures var t := Run(cfg, s, Visits(us));
      && Inv(t) && t.clock == s.clock && t.pods == s.pods
      && (forall u :: u in us ==> Live(t.room, t.clock, u) && u in t.room.active)
      && (forall u :: u !in us && Admissible(cfg, s, u) ==> Admissible(cfg, t, u))
  {
    if us != [] {
      var rest, last := us[..|us| - 1], us[|us| - 1];
      assert us == rest + [last];
      assert last !in rest;
      AnyOrderAdmits(cfg, s, rest);
      var m := Run(cfg, s, Visits(rest));
      VisitsNext(cfg, s, us);
      StepInv(cfg, m, Visit(last));
      AdmissibleGetsIn(cfg, m, last);
      forall u | u !in us && Admissible(cfg, s, u)
        ensures Admissible(cfg, Apply(cfg, m, Visit(last)), u)
      {
        assert u !in rest && Admissible(cfg, m, u);
        StepKeepsAdmissible(cfg, m, Visit(last), u);
      }
    }
  }

  // ---------- order ----------

  lemma {:induction false} LeaveKeepsOrder(s: seq<Token>, gone: set<Token>, u: Token, v: Token)
    requires u in s && v in s && u !in gone && v !in gone && Rank(s, u) < Rank(s, v)
    ensures Rank(Leave(s, gone), u) < Rank(Leave(s, gone), v)
  {
    var rest := Leave(s[1..], gone);
    if s[0] in gone {
      assert Leave(s, gone) == rest;
      LeaveKeepsOrder(s[1..], gone, u, v);
    } else {
      assert Leave(s, gone)[1..] == rest;
      if s[0] != u { LeaveKeepsOrder(s[1..], gone, u, v); }
    }
  }

  lemma StepKeepsOrder(cfg: Config, s: Sys, e: Event, u: Token, v: Token)
    requires u in s.room.waiting && v in s.room.waiting && Rank(s.room.waiting, u) < Rank(s.room.waiting, v)
    requires u in Apply(cfg, s, e).room.waiting && v in Apply(cfg, s, e).room.waiting
    ensures Rank(Apply(cfg, s, e).room.waiting, u) < Rank(Apply(cfg, s, e).room.waiting, v)
  {
    var t := Apply(cfg, s, e);
    if OfPod(e) {
      PodStep(cfg, s, e);
      CommandFrame(s, e.p, e);
      if t.room.waiting != s.room.waiting { LeaveKeepsOrder(s.room.waiting, PassOf(s, e.p).listed, u, v); }
    } else if e.Visit? {
      VisitKeepsOrder(cfg, s, e.u, u, v);
    }
  }

  lemma VisitKeepsOrder(cfg: Config, s: Sys, x: Token, u: Token, v: Token)
    requires u in s.room.waiting && v in s.room.waiting && Rank(s.room.waiting, u) < Rank(s.room.waiting, v)
    requires var t := Check(cfg, s.room, x, s.pods, s.clock).0.waiting; u in t && v in t
    ensures var t := Check(cfg, s.room, x, s.pods, s.clock).0.waiting; Rank(t, u) < Rank(t, v)
  {
    var t := Check(cfg, s.room, x, s.pods, s.clock).0.waiting;
    if t == Leave(s.room.waiting, {x}) {
      LeaveKeepsOrder(s.room.waiting, {x}, u, v);
    } else if t != s.room.waiting {
      RankAppend(s.room.waiting, x, u);
      RankAppend(s.room.waiting, x, v);
    }
  }

  /** Nobody overtakes: of two users who wait throughout a run the earlier one stays ahead. */
  lemma {:induction false} NoOvertaking(cfg: Config, s: Sys, es: seq<Event>, u: Token, v: Token)
    requires u in s.room.waiting && v in s.room.waiting && Rank(s.room.waiting, u) < Rank(s.room.waiting, v)
    requires Always(cfg, s, es, (x: Sys) => u in x.room.waiting && v in x.room.waiting)
    ensures var t := Run(cfg, s, es).room.waiting; u in t && v in t && Rank(t, u) < Rank(t, v)
  {
    if es != [] {
      NoOvertaking(cfg, s, es[..|es| - 1], u, v);
      StepKeepsOrder(cfg, Run(cfg, s, es[..|es| - 1]), es[|es| - 1], u, v);
    }
  }

  // ---------- the frontend's own form ----------

  /** What a check answers and leaves behind, for the live, for waiters and for newcomers. */
  ghost predicate Answered(cfg: Config, before: Room, u: Token, pods: nat, now: real, after: Room, status: Status) {
    if u in before.sessions && now < before.sessions[u] then
      status == Status(true, 0) && after == before.(sessions := before.sessions[u := now + cfg.sessionTtl])
    else if u !in before.waiting then
      && (status.passed <==> before.waiting == [] && |before.active| < Slots(cfg, pods))
      && (status.passed ==>
            && status.position == 0
            && after == before.(active := before.active + {u}, sessions := before.sessions[u := now + cfg.sessionTtl]))
      && (!status.passed ==>
            && status.position == |before.waiting| + 1
            && after == before.(waiting := before.waiting + [u], beats := before.beats[u := now]))
    else
      && (status.passed ==>
            && status.position == 0
            && after.beats == before.beats - {u} && after.active == before.active + {u}
            && after.sessions == before.sessions[u := now + cfg.sessionTtl]
            && (exists i :: 0 <= i < |before.waiting| && before.waiting[i] == u && i + |before.active| < Slots(cfg, pods))
            && (forall v :: v in after.waiting <==> v in before.waiting && v != u))
      && (!status.passed ==>
            && 1 <= status.position <= |before.waiting| && before.waiting[status.position - 1] == u
            && status.position - 1 + |before.active| >= Slots(cfg, pods)
            && after == before.(beats := before.beats[u := now]))
  }

  lemma CheckAnswers(cfg: Config, room: Room, u: Token, pods: nat, now: real)
    ensures var (after, status) := Check(cfg, room, u, pods, now); Answered(cfg, room, u, pods, now, after, status)
  {
  }

  class Gate {
    const cfg: Config
    const enabled: bool
    var waiting: seq<Token>
    var beats: map<Token, real>
    var active: set<Token>
    var sessions: map<Token, real>

    constructor (cfg: Config, enabled: bool)
      ensures this.cfg == cfg && this.enabled == enabled && State() == EMPTY
    {
      this.cfg := cfg;
      this.enabled := enabled;
      waiting, beats, active, sessions := [], map[], {}, map[];
    }

    ghost function State(): Room
      reads this
    {
      Room(waiting, beats, active, sessions)
    }

    /** `podKeys` is how many pod keys the scan found; `connected` whether Redis could be reached. */
    method CheckWaitingStatus(token: Token, connected: bool, podKeys: nat, now: real) returns (status: Status)
      modifies this`waiting, this`beats, this`active, this`sessions
      ensures !enabled || token == "" ==> status == Status(true, 0) && State() == old(State())
      ensures enabled && token != "" && !connected ==> status == Status(false, -1) && State() == old(State())
      ensures enabled && token != "" && connected ==> (State(), status) == Check(cfg, old(State()), token, podKeys, now)
      ensures enabled && token != "" && connected ==> Answered(cfg, old(State()), token, podKeys, now, State(), status)
      ensures !status.passed && enabled && connected ==>
        token in waiting && token in beats && beats[token] == now && status.position == Rank(waiting, token) + 1
      ensures status.passed && enabled && token != "" && cfg.sessionTtl > 0.0 ==> Live(State(), now, token)
    {
      CheckAnswers(cfg, State(), token, podKeys, now);
      if !enabled || token == "" { return Status(true, 0); }
      if !connected { return Status(false, -1); }
      if token in sessions && now < sessions[token] {
        sessions := sessions[token := now + cfg.sessionTtl];
        return Status(true, 0);
      }
      var podCount := if podKeys > 1 then podKeys else 1;
      var currentMax := podCount * cfg.slotsPerPod;
      var activeCount := |active|;
      if token in waiting {
        var pos := Rank(waiting, token);
        if pos < currentMax - activeCount {
          waiting := Leave(waiting, {token});
          beats := beats - {token};
          sessions := sessions[token := now + cfg.sessionTtl];
          active := active + {token};
          return Status(true, 0);
        }
        beats := beats[token := now];
        return Status(false, pos + 1);
      }
      if activeCount < currentMax && |waiting| == 0 {
        sessions := sessions[token := now + cfg.sessionTtl];
        active := active + {token};
        return Status(true, 0);
      }
      waiting := waiting + [token];
      beats := beats[token := now];
      LastRank(old(waiting), token);
      status := Status(false, |waiting|);
    }

    method HeartbeatPass(now: real)
      modifies this`waiting, this`beats, this`active
      ensures State() == Heartbeat(old(State()), now)
    {
      ghost var before := State();
      var expired := set m | m in active && !(m in sessions && now < sessions[m]);
      active := active - expired;
      assert active == Heartbeat(before, now).active;
      var stale := set u | u in beats && 0.0 <= beats[u] <= now - STALE_AFTER;
      assert stale == SilentOnes(before, now);
      waiting := Leave(waiting, stale);
      beats := beats - stale;
    }
  }

  lemma {:induction false} LastRank(s: seq<Token>, u: Token)
    requires u !in s
    ensures Rank(s + [u], u) == |s|
  {
    if s != [] {
      assert (s + [u])[1..] == s[1..] + [u];
      LastRank(s[1..], u);
    }
  }
}
