/**
 * What the heartbeat's separate commands keep, and what they keep only when they come in time:
 * exact conditions for whole runs, runs from the empty room that break them, and a proof that an
 * undisturbed pass does what the pass as a function does.
 */
module WaitingRoomHeartbeat {
  import opened WaitingRoom

  // ---------- what holds exactly when the heartbeat's commands come in time ----------

  ghost predicate LiveAreActive(s: Sys) {
    forall u :: Live(s.room, s.clock, u) ==> u in s.room.active
  }

  /** No user the SREM is about to forget has come back since the lookup. */
  ghost predicate ForgetInTime(s: Sys, e: Event) {
    e.Forget? && PassOf(s, e.p).Checking? && PassOf(s, e.p).todo == {} ==>
      forall u :: u in PassOf(s, e.p).expired ==> !Live(s.room, s.clock, u)
  }

  lemma ForgetStepIff(cfg: Config, s: Sys, e: Event)
    requires LiveAreActive(s)
    ensures LiveAreActive(Apply(cfg, s, e)) <==> ForgetInTime(s, e)
  {
    var t := Apply(cfg, s, e);
    if OfPod(e) {
      PodStep(cfg, s, e);
      CommandFrame(s, e.p, e);
      assert forall u :: Live(t.room, t.clock, u) == Live(s.room, s.clock, u);
    }
  }

  /**
   * Live users are active in every state of a run if and only if every SREM of the run comes
   * before any of the users it names is live again.
   */
  lemma LiveAlwaysActiveIff(cfg: Config, pods: nat, es: seq<Event>)
    ensures Always(cfg, Init(pods), es, s => LiveAreActive(s)) <==> Along(cfg, Init(pods), es, (s, e) => ForgetInTime(s, e))
  {
    forall s, e | LiveAreActive(s)
      ensures LiveAreActive(Apply(cfg, s, e)) <==> ForgetInTime(s, e)
    {
      ForgetStepIff(cfg, s, e);
    }
    AlwaysIffAlong(cfg, Init(pods), es, s => LiveAreActive(s), (s, e) => ForgetInTime(s, e));
  }

  function LiveUsers(s: Sys): set<Token> {
    set u | u in s.room.sessions && Live(s.room, s.clock, u)
  }

  /** What the room is for: while pods do not drop and every SREM is in time, no more users are live than there are slots. */
  lemma LiveWithinCapacity(cfg: Config, pods: nat, es: seq<Event>)
    requires Along(cfg, Init(pods), es, (s, e) => ForgetInTime(s, e) && PodsHold(s, e))
    ensures var t := Run(cfg, Init(pods), es); |LiveUsers(t)| <= Slots(cfg, t.pods)
  {
    var t := Run(cfg, Init(pods), es);
    ActiveWithinCapacity(cfg, pods, es);
    assert LiveUsers(t) <= t.room.active;
    Fewer(LiveUsers(t), t.room.active);
  }

  lemma {:induction false} ActiveWithinCapacity(cfg: Config, pods: nat, es: seq<Event>)
    requires Along(cfg, Init(pods), es, (s, e) => ForgetInTime(s, e) && PodsHold(s, e))
    ensures var t := Run(cfg, Init(pods), es); LiveAreActive(t) && |t.room.active| <= Slots(cfg, t.pods)
  {
    if es != [] {
      var m := Run(cfg, Init(pods), es[..|es| - 1]);
      ActiveWithinCapacity(cfg, pods, es[..|es| - 1]);
      ForgetStepIff(cfg, m, es[|es| - 1]);
      StepCapacity(cfg, m, es[|es| - 1]);
      MorePods(cfg, m.pods, Apply(cfg, m, es[|es| - 1]).pods);
    }
  }

  ghost predicate WaitersBeat(s: Sys) {
    forall u :: u in s.room.waiting ==> u in s.room.beats
  }

  /** No user the second ZREM is about to name has queued again since the first. */
  ghost predicate UnbeatInTime(s: Sys, e: Event) {
    e.Unbeat? && PassOf(s, e.p).Unbeating? ==> forall u :: u in PassOf(s, e.p).listed ==> u !in s.room.waiting
  }

  lemma UnbeatStepIff(cfg: Config, s: Sys, e: Event)
    requires WaitersBeat(s)
    ensures WaitersBeat(Apply(cfg, s, e)) <==> UnbeatInTime(s, e)
  {
    if OfPod(e) {
      PodStep(cfg, s, e);
      CommandFrame(s, e.p, e);
    }
  }

  /** Every waiter has a heartbeat in every state if and only if every second ZREM comes in time. */
  lemma WaitersAlwaysBeatIff(cfg: Config, pods: nat, es: seq<Event>)
    ensures Always(cfg, Init(pods), es, s => WaitersBeat(s)) <==> Along(cfg, Init(pods), es, (s, e) => UnbeatInTime(s, e))
  {
    forall s, e | WaitersBeat(s)
      ensures WaitersBeat(Apply(cfg, s, e)) <==> UnbeatInTime(s, e)
    {
      UnbeatStepIff(cfg, s, e);
    }
    AlwaysIffAlong(cfg, Init(pods), es, s => WaitersBeat(s), (s, e) => UnbeatInTime(s, e));
  }

  ghost predicate BeingSwept(s: Sys, u: Token) {
    exists p :: p in s.passes && s.passes[p].Unbeating? && u in s.passes[p].listed
  }

  /** A heartbeat without a waiter belongs to a pod between its two ZREMs. */
  ghost predicate BeatsWait(s: Sys) {
    forall u :: u in s.room.beats && u !in s.room.waiting ==> BeingSwept(s, u)
  }

  ghost predicate SweptByOther(s: Sys, p: Pod, u: Token) {
    exists q :: q in s.passes && q != p && s.passes[q].Unbeating? && u in s.passes[q].listed
  }

  /**
   * A pass that breaks off between its two ZREMs leaves nothing to do: every user it has listed has
   * no heartbeat left, or has queued again, or is on the list of another pod.
   */
  ghost predicate SweepFinishes(s: Sys, e: Event) {
    e.Fail? && PassOf(s, e.p).Unbeating? ==>
      forall u :: u in PassOf(s, e.p).listed && u in s.room.beats && u !in s.room.waiting ==> SweptByOther(s, e.p, u)
  }

  lemma FailStepIff(cfg: Config, s: Sys, p: Pod)
    requires BeatsWait(s)
    ensures BeatsWait(Apply(cfg, s, Fail(p))) <==> SweepFinishes(s, Fail(p))
  {
    var t := At(s, p, Resting);
    forall u
      ensures BeingSwept(t, u) <==> SweptByOther(s, p, u)
    {
      if SweptByOther(s, p, u) {
        var q :| q in s.passes && q != p && s.passes[q].Unbeating? && u in s.passes[q].listed;
        SweptNow(t, q, u);
      }
      if BeingSwept(t, u) {
        var q :| q in t.passes && t.passes[q].Unbeating? && u in t.passes[q].listed;
        assert q != p && s.passes[q] == t.passes[q];
      }
    }
    forall u | BeingSwept(s, u) && !SweptByOther(s, p, u)
      ensures PassOf(s, p).Unbeating? && u in PassOf(s, p).listed
    {
      var q :| q in s.passes && s.passes[q].Unbeating? && u in s.passes[q].listed;
      assert q == p;
    }
  }

  lemma StillSwept(s: Sys, t: Sys, p: Pod, u: Token)
    requires BeingSwept(s, u) && (t.passes == s.passes || t.passes == s.passes[p := PassOf(t, p)])
    requires !PassOf(s, p).Unbeating? || u !in PassOf(s, p).listed || PassOf(t, p) == PassOf(s, p)
    ensures BeingSwept(t, u)
  {
    var q :| q in s.passes && s.passes[q].Unbeating? && u in s.passes[q].listed;
    assert q in t.passes && t.passes[q] == s.passes[q];
  }

  lemma SweptNow(t: Sys, p: Pod, u: Token)
    requires p in t.passes && t.passes[p].Unbeating? && u in t.passes[p].listed
    ensures BeingSwept(t, u)
  {
  }

  lemma PodKeepsBeats(cfg: Config, s: Sys, e: Event)
    requires BeatsWait(s) && OfPod(e)
    ensures BeatsWait(Apply(cfg, s, e))
  {
    var t := Apply(cfg, s, e);
    var p := e.p;
    PodStep(cfg, s, e);
    CommandFrame(s, p, e);
    forall u | u in t.room.beats && u !in t.room.waiting
      ensures BeingSwept(t, u)
    {
      if PassOf(s, p).Unqueueing? && e.Unqueue? && u in PassOf(s, p).listed {
        SweptNow(t, p, u);
      } else {
        StillSwept(s, t, p, u);
      }
    }
  }

  lemma BeatsStepIff(cfg: Config, s: Sys, e: Event)
    requires BeatsWait(s)
    ensures BeatsWait(Apply(cfg, s, e)) <==> SweepFinishes(s, e)
  {
    var t := Apply(cfg, s, e);
    if OfPod(e) {
      PodKeepsBeats(cfg, s, e);
    } else if e.Fail? {
      FailStepIff(cfg, s, e.p);
    } else {
      assert forall u :: BeingSwept(t, u) == BeingSwept(s, u);
    }
  }

  /** Every heartbeat has its waiter, or is just being swept, in every state if and only if sweeps finish. */
  lemma BeatsAlwaysWaitIff(cfg: Config, pods: nat, es: seq<Event>)
    ensures Always(cfg, Init(pods), es, s => BeatsWait(s)) <==> Along(cfg, Init(pods), es, (s, e) => SweepFinishes(s, e))
  {
    forall s, e | BeatsWait(s)
      ensures BeatsWait(Apply(cfg, s, e)) <==> SweepFinishes(s, e)
    {
      BeatsStepIff(cfg, s, e);
    }
    AlwaysIffAlong(cfg, Init(pods), es, s => BeatsWait(s), (s, e) => SweepFinishes(s, e));
  }

  ghost predicate InTime(s: Sys, e: Event) {
    ForgetInTime(s, e) && UnbeatInTime(s, e) && SweepFinishes(s, e)
  }

  /**
   * The whole waiting-room invariant, on every run whose heartbeats come in time: live users are
   * active and not waiting, and whenever no pod is between its two ZREMs the queue and the
   * heartbeat set hold the same users.
   */
  lemma {:induction false} InTimeInv(cfg: Config, pods: nat, es: seq<Event>)
    requires Along(cfg, Init(pods), es, (s, e) => InTime(s, e))
    ensures var t := Run(cfg, Init(pods), es);
      && Inv(t) && LiveAreActive(t) && WaitersBeat(t) && BeatsWait(t)
      && ((forall p :: p in t.passes ==> !t.passes[p].Unbeating?) ==>
            forall u :: u in t.room.waiting <==> u in t.room.beats)
  {
    AlwaysInv(cfg, Init(pods), es);
    if es != [] {
      var m := Run(cfg, Init(pods), es[..|es| - 1]);
      InTimeInv(cfg, pods, es[..|es| - 1]);
      ForgetStepIff(cfg, m, es[|es| - 1]);
      UnbeatStepIff(cfg, m, es[|es| - 1]);
      BeatsStepIff(cfg, m, es[|es| - 1]);
    }
  }

  /** The first ZREM throws out no waiter who is heard if and only if no listed waiter has been heard since. */
  lemma UnqueueSparesIff(cfg: Config, s: Sys, p: Pod)
    requires PassOf(s, p).Unqueueing?
    ensures (forall u :: u in s.room.waiting && !Silent(s.room, s.clock, u) ==> u in Apply(cfg, s, Unqueue(p)).room.waiting)
       <==> (forall u :: u in PassOf(s, p).listed && u in s.room.waiting ==> Silent(s.room, s.clock, u))
  {
    var t := Apply(cfg, s, Unqueue(p));
    assert t.room.waiting == Leave(s.room.waiting, PassOf(s, p).listed);
    assert forall u :: u in t.room.waiting <==> u in s.room.waiting && u !in PassOf(s, p).listed;
  }

  // ---------- the races, from the empty room ----------

  const FIRST: Token := "a"
  const SECOND: Token := "b"

  /** The first user's session ends, a pod sees that, the user comes back, the pod forgets the user. */
  function ForgetRace(cfg: Config): seq<Event> {
    [Pods(2), Visit(FIRST), Tick(cfg.sessionTtl), Members(0), Exists(0, FIRST), Visit(FIRST), Forget(0)]
  }

  /** After that the first user has a session and is not counted as active. */
  function Raced(cfg: Config): Sys {
    Sys(Room([], map[], {}, map[FIRST := cfg.sessionTtl + cfg.sessionTtl]), cfg.sessionTtl, 2, map[0 := Reading])
  }

  lemma ForgetRaceRun(cfg: Config, pods: nat)
    requires cfg.slotsPerPod >= 1 && cfg.sessionTtl > 0.0
    ensures Run(cfg, Init(pods), ForgetRace(cfg)) == Raced(cfg)
  {
    var ttl := cfg.sessionTtl;
    var s0 := Init(pods);
    var s1 := s0.(pods := 2);
    var s2 := s1.(room := Room([], map[], {FIRST}, map[FIRST := ttl]));
    var s3 := s2.(clock := ttl);
    var s4 := At(s3, 0, Checking({FIRST}, {}));
    var s5 := At(s4, 0, Checking({}, {FIRST}));
    var s6 := s5.(room := Room([], map[], {FIRST}, map[FIRST := ttl + ttl]));
    assert Capacity(cfg, 2) >= 2;
    assert Apply(cfg, s1, Visit(FIRST)) == s2;
    assert Apply(cfg, s4, Exists(0, FIRST)) == s5;
    assert Apply(cfg, s5, Visit(FIRST)) == s6;
    assert Apply(cfg, s6, Forget(0)) == Raced(cfg);
    Traced(cfg, [s0, s1, s2, s3, s4, s5, s6, Raced(cfg)], ForgetRace(cfg));
  }

  /** A user re-admitted between the lookup and the SREM ends up live but not active. */
  lemma ForgetActiveRace(cfg: Config, pods: nat)
    requires cfg.slotsPerPod >= 1 && cfg.sessionTtl > 0.0
    ensures var t := Run(cfg, Init(pods), ForgetRace(cfg));
      Live(t.room, t.clock, FIRST) && FIRST !in t.room.active && !LiveAreActive(t)
  {
    ForgetRaceRun(cfg, pods);
    assert Live(Raced(cfg).room, Raced(cfg).clock, FIRST);
  }

  const THIRD: Token := "c"

  function Overfull(cfg: Config): Sys {
    var late := cfg.sessionTtl + cfg.sessionTtl;
    Raced(cfg).(room := Room([], map[], {SECOND, THIRD}, map[FIRST := late, SECOND := late, THIRD := late]))
  }

  lemma OverfullRun(cfg: Config)
    requires cfg.slotsPerPod == 1 && cfg.sessionTtl > 0.0
    ensures Run(cfg, Raced(cfg), [Visit(SECOND), Visit(THIRD)]) == Overfull(cfg)
  {
    var late := cfg.sessionTtl + cfg.sessionTtl;
    var s1 := Raced(cfg).(room := Room([], map[], {SECOND}, map[FIRST := late, SECOND := late]));
    assert FIRST != SECOND && SECOND != THIRD && FIRST != THIRD;
    assert Apply(cfg, Raced(cfg), Visit(SECOND)) == s1;
    assert Apply(cfg, s1, Visit(THIRD)) == Overfull(cfg);
    Traced(cfg, [Raced(cfg), s1, Overfull(cfg)], [Visit(SECOND), Visit(THIRD)]);
  }

  lemma OverfullLive(cfg: Config)
    requires cfg.sessionTtl > 0.0
    ensures LiveUsers(Overfull(cfg)) == {FIRST, SECOND, THIRD} && |LiveUsers(Overfull(cfg))| == 3
  {
    assert FIRST != SECOND && SECOND != THIRD && FIRST != THIRD;
    assert LiveUsers(Overfull(cfg)) == {FIRST, SECOND, THIRD};
  }

  /** The freed slot is given away once more: three users are live in a room for two. */
  lemma OverfullRace(cfg: Config)
    requires cfg.slotsPerPod == 1 && cfg.sessionTtl > 0.0
    ensures var t := Run(cfg, Init(1), ForgetRace(cfg) + [Visit(SECOND), Visit(THIRD)]);
      && LiveUsers(t) == {FIRST, SECOND, THIRD} && |LiveUsers(t)| == 3 > Slots(cfg, t.pods)
  {
    ForgetRaceRun(cfg, 1);
    RunConcat(cfg, Init(1), ForgetRace(cfg), [Visit(SECOND), Visit(THIRD)]);
    OverfullRun(cfg);
    OverfullLive(cfg);
  }

  /** ... and all the while no pod has gone. */
  lemma OverfullNoDrop(cfg: Config)
    ensures Along(cfg, Init(1), ForgetRace(cfg) + [Visit(SECOND), Visit(THIRD)], (s, e) => PodsHold(s, e))
  {
    NoDrop(cfg, ForgetRace(cfg) + [Visit(SECOND), Visit(THIRD)]);
  }

  /** A room of one pod, and of two once it has grown. */
  lemma {:induction false} NoDrop(cfg: Config, es: seq<Event>)
    requires forall i :: 0 <= i < |es| && es[i].Pods? ==> es[i].n == 2
    ensures Along(cfg, Init(1), es, (s, e) => PodsHold(s, e)) && Run(cfg, Init(1), es).pods <= 2
  {
    if es != [] {
      var m := Run(cfg, Init(1), es[..|es| - 1]);
      NoDrop(cfg, es[..|es| - 1]);
      if OfPod(es[|es| - 1]) { PodStep(cfg, m, es[|es| - 1]); }
    }
  }

  /** The first user fills the room, the second waits and falls silent, a pod lists it as stale. */
  function Listing(cfg: Config): seq<Event> {
    [Visit(FIRST), Visit(SECOND), Tick(STALE_AFTER), Members(0), Exists(0, FIRST), Forget(0), ReadClock(0), Range(0)]
  }

  /** After that the second user has just been listed; the first one is still there. */
  function Listed(cfg: Config): Sys {
    Sys(Room([SECOND], map[SECOND := 0.0], {FIRST}, map[FIRST := cfg.sessionTtl]), STALE_AFTER, 1,
        map[0 := Unqueueing({SECOND})])
  }

  /** One slot, and sessions that outlast a silence. */
  predicate OneSlot(cfg: Config) {
    cfg.slotsPerPod == 1 && cfg.sessionTtl > STALE_AFTER
  }

  lemma ListingRun(cfg: Config)
    requires OneSlot(cfg)
    ensures Run(cfg, Init(1), Listing(cfg)) == Listed(cfg) && Silent(Listed(cfg).room, STALE_AFTER, SECOND)
  {
    var s0 := Init(1);
    var s1 := s0.(room := Room([], map[], {FIRST}, map[FIRST := cfg.sessionTtl]));
    var s2 := s1.(room := Listed(cfg).room);
    var s3 := s2.(clock := STALE_AFTER);
    var s4 := At(s3, 0, Checking({FIRST}, {}));
    var s5 := At(s4, 0, Checking({}, {}));
    var s6 := At(s5, 0, Reading);
    var s7 := At(s6, 0, Ranging(STALE_AFTER));
    var s8 := At(s7, 0, Unqueueing({SECOND}));
    assert Apply(cfg, s0, Visit(FIRST)) == s1;
    assert Apply(cfg, s1, Visit(SECOND)) == s2;
    assert Apply(cfg, s4, Exists(0, FIRST)) == s5;
    assert Apply(cfg, s5, Forget(0)) == s6;
    assert SilentOnes(s7.room, STALE_AFTER) == {SECOND};
    assert Apply(cfg, s7, Range(0)) == s8;
    assert s8 == Listed(cfg);
    Traced(cfg, [s0, s1, s2, s3, s4, s5, s6, s7, s8], Listing(cfg));
  }

  /** The listed user queues again between the two ZREMs. */
  function SweepRace(cfg: Config): seq<Event> {
    Listing(cfg) + [Unqueue(0), Visit(SECOND), Unbeat(0)]
  }

  lemma SweepRaceRun(cfg: Config)
    requires OneSlot(cfg)
    ensures Run(cfg, Init(1), SweepRace(cfg)) == At(Listed(cfg), 0, Resting).(room := Listed(cfg).room.(beats := map[]))
  {
    var s0 := Listed(cfg);
    var s1 := At(s0, 0, Unbeating({SECOND})).(room := s0.room.(waiting := []));
    var s2 := s1.(room := s0.room.(beats := map[SECOND := STALE_AFTER]));
    var s3 := At(s2, 0, Resting).(room := s0.room.(beats := map[]));
    assert Leave([SECOND], {SECOND}) == [];
    assert Apply(cfg, s0, Unqueue(0)) == s1;
    assert Apply(cfg, s1, Visit(SECOND)) == s2;
    assert Apply(cfg, s2, Unbeat(0)) == s3;
    ListingRun(cfg);
    RunConcat(cfg, Init(1), Listing(cfg), [Unqueue(0), Visit(SECOND), Unbeat(0)]);
    Traced(cfg, [s0, s1, s2, s3], [Unqueue(0), Visit(SECOND), Unbeat(0)]);
  }

  /** Waiting without a heartbeat, and on no pod's list: nothing but a visit will ever remove u. */
  ghost predicate Forgotten(s: Sys, u: Token) {
    && u in s.room.waiting && u !in s.room.beats
    && (forall p :: p in s.passes && s.passes[p].Unqueueing? ==> u !in s.passes[p].listed)
  }

  lemma ForgottenStep(cfg: Config, s: Sys, e: Event, u: Token)
    requires Forgotten(s, u) && e != Visit(u)
    ensures Forgotten(Apply(cfg, s, e), u)
  {
    if OfPod(e) {
      PodStep(cfg, s, e);
      CommandFrame(s, e.p, e);
    }
  }

  lemma {:induction false} ForgottenRun(cfg: Config, s: Sys, es: seq<Event>, u: Token)
    requires Forgotten(s, u) && Visit(u) !in es
    ensures Forgotten(Run(cfg, s, es), u)
  {
    if es != [] {
      ForgottenRun(cfg, s, es[..|es| - 1], u);
      ForgottenStep(cfg, Run(cfg, s, es[..|es| - 1]), es[|es| - 1], u);
    }
  }

  /**
   * A swept user who queues again between the two ZREMs waits without a heartbeat; if it never
   * comes back, no sweep of any pod ever removes it and it keeps its place in the queue for good.
   */
  lemma SweepBeatsRace(cfg: Config, es: seq<Event>)
    requires OneSlot(cfg) && Visit(SECOND) !in es
    ensures !WaitersBeat(Run(cfg, Init(1), SweepRace(cfg)))
    ensures var t := Run(cfg, Init(1), SweepRace(cfg) + es);
      SECOND in t.room.waiting && SECOND !in t.room.beats && !WaitersBeat(t)
  {
    SweepRaceRun(cfg);
    var s := Run(cfg, Init(1), SweepRace(cfg));
    assert Forgotten(s, SECOND);
    RunConcat(cfg, Init(1), SweepRace(cfg), es);
    ForgottenRun(cfg, s, es, SECOND);
  }

  /** A pass that breaks off between its two ZREMs leaves a heartbeat nobody waits for. */
  lemma BrokenSweep(cfg: Config)
    requires OneSlot(cfg)
    ensures var t := Run(cfg, Init(1), Listing(cfg) + [Unqueue(0), Fail(0)]);
      t.room.waiting == [] && SECOND in t.room.beats && PassOf(t, 0) == Resting && !BeatsWait(t)
  {
    var s0 := Listed(cfg);
    var s1 := At(s0, 0, Unbeating({SECOND})).(room := s0.room.(waiting := []));
    var s2 := At(s1, 0, Resting);
    assert Leave([SECOND], {SECOND}) == [];
    assert Apply(cfg, s0, Unqueue(0)) == s1;
    ListingRun(cfg);
    RunConcat(cfg, Init(1), Listing(cfg), [Unqueue(0), Fail(0)]);
    Traced(cfg, [s0, s1, s2], [Unqueue(0), Fail(0)]);
    assert !BeingSwept(s2, SECOND);
  }

  /** A listed waiter who is heard again before the first ZREM is thrown out all the same. */
  lemma HeardButSweptRace(cfg: Config)
    requires OneSlot(cfg)
    ensures var s := Run(cfg, Init(1), Listing(cfg) + [Visit(SECOND)]);
      var t := Run(cfg, Init(1), Listing(cfg) + [Visit(SECOND)] + [Unqueue(0)]);
      SECOND in s.room.waiting && s.room.beats == map[SECOND := s.clock] && !Silent(s.room, s.clock, SECOND)
      && t.clock == s.clock && SECOND !in t.room.waiting
  {
    ListingRun(cfg);
    var s0 := Listed(cfg);
    var s1 := s0.(room := s0.room.(beats := map[SECOND := STALE_AFTER]));
    assert Apply(cfg, s0, Visit(SECOND)) == s1;
    RunConcat(cfg, Init(1), Listing(cfg), [Visit(SECOND)]);
    Traced(cfg, [s0, s1], [Visit(SECOND)]);
    RunConcat(cfg, Init(1), Listing(cfg) + [Visit(SECOND)], [Unqueue(0)]);
    Traced(cfg, [s1, Apply(cfg, s1, Unqueue(0))], [Unqueue(0)]);
  }

  // ---------- a pass nobody disturbs ----------

  function Lookups(p: Pod, order: seq<Token>): seq<Event> {
    if order == [] then [] else Lookups(p, order[..|order| - 1]) + [Exists(p, order[|order| - 1])]
  }

  /** All commands of one pass, looking the members up in this order. */
  function PassEvents(p: Pod, order: seq<Token>): seq<Event> {
    [Members(p)] + Lookups(p, order) + [Forget(p), ReadClock(p), Range(p), Unqueue(p), Unbeat(p)]
  }

  /** The pass after the members in `order` have been looked up. */
  function LookedUp(s: Sys, members: set<Token>, order: seq<Token>): Pass {
    Checking(set m | m in members && m !in order, set m | m in members && m in order && !Live(s.room, s.clock, m))
  }

  lemma {:induction false} LookupsRun(cfg: Config, s: Sys, p: Pod, members: set<Token>, order: seq<Token>)
    requires PassOf(s, p) == Checking(members, {})
    ensures Run(cfg, s, Lookups(p, order)) == At(s, p, LookedUp(s, members, order))
    decreases |order|
  {
    if order == [] {
      assert LookedUp(s, members, order) == Checking(members, {});
    } else {
      var init, last := order[..|order| - 1], order[|order| - 1];
      LookupsRun(cfg, s, p, members, init);
      LookupStep(cfg, s, p, members, init, last);
      assert order == init + [last];
      var es := Lookups(p, order);
      assert es[..|es| - 1] == Lookups(p, init) && es[|es| - 1] == Exists(p, last);
    }
  }

  lemma LookupStep(cfg: Config, s: Sys, p: Pod, members: set<Token>, init: seq<Token>, last: Token)
    ensures Apply(cfg, At(s, p, LookedUp(s, members, init)), Exists(p, last))
         == At(s, p, LookedUp(s, members, init + [last]))
  {
    var a, b := LookedUp(s, members, init), LookedUp(s, members, init + [last]);
    if last in a.todo {
      assert b.todo == a.todo - {last};
      assert b.expired == if Live(s.room, s.clock, last) then a.expired else a.expired + {last};
    } else {
      assert b.todo == a.todo && b.expired == a.expired;
    }
  }

  /** The commands after the lookups. */
  lemma RestAlone(cfg: Config, s: Sys, p: Pod, expired: set<Token>)
    requires PassOf(s, p) == Checking({}, expired)
    ensures var silent := SilentOnes(s.room, s.clock);
      Run(cfg, s, [Forget(p), ReadClock(p), Range(p), Unqueue(p), Unbeat(p)])
      == At(s, p, Resting).(room := Room(Leave(s.room.waiting, silent), s.room.beats - silent,
                                         s.room.active - expired, s.room.sessions))
  {
    var silent := SilentOnes(s.room, s.clock);
    var r := s.room.(active := s.room.active - expired);
    var s1 := At(s, p, Reading).(room := r);
    var s2 := At(s1, p, Ranging(s.clock));
    assert SilentOnes(r, s.clock) == silent;
    var s3 := At(s2, p, Unqueueing(silent));
    Traced(cfg, [s, s1, s2, s3], [Forget(p), ReadClock(p), Range(p)]);
    ZremsAlone(cfg, s3, p, silent);
    RunConcat(cfg, s, [Forget(p), ReadClock(p), Range(p)], [Unqueue(p), Unbeat(p)]);
    assert [Forget(p), ReadClock(p), Range(p)] + [Unqueue(p), Unbeat(p)]
        == [Forget(p), ReadClock(p), Range(p), Unqueue(p), Unbeat(p)];
    assert At(s3, p, Resting).passes == s.passes[p := Resting];
  }

  lemma ZremsAlone(cfg: Config, s: Sys, p: Pod, listed: set<Token>)
    requires PassOf(s, p) == Unqueueing(listed)
    ensures Run(cfg, s, [Unqueue(p), Unbeat(p)])
         == At(s, p, Resting).(room := s.room.(waiting := Leave(s.room.waiting, listed), beats := s.room.beats - listed))
  {
    var s1 := At(s, p, Unbeating(listed)).(room := s.room.(waiting := Leave(s.room.waiting, listed)));
    var s2 := At(s1, p, Resting).(room := s1.room.(beats := s.room.beats - listed));
    Traced(cfg, [s, s1, s2], [Unqueue(p), Unbeat(p)]);
  }

  lemma AtTwice(s: Sys, p: Pod, first: Pass, second: Pass)
    ensures At(At(s, p, first), p, second) == At(s, p, second)
  {
  }

  ghost predicate Enumerates(order: seq<Token>, members: set<Token>) {
    forall m :: m in order <==> m in members
  }

  lemma MembersAlone(cfg: Config, s: Sys, p: Pod, order: seq<Token>)
    requires PassOf(s, p) == Resting && Enumerates(order, s.room.active)
    ensures Run(cfg, s, [Members(p)] + Lookups(p, order))
         == At(s, p, Checking({}, set m | m in s.room.active && !Live(s.room, s.clock, m)))
  {
    var s1 := At(s, p, Checking(s.room.active, {}));
    Traced(cfg, [s, s1], [Members(p)]);
    LookupsRun(cfg, s1, p, s.room.active, order);
    var pass := LookedUp(s1, s.room.active, order);
    assert pass == Checking({}, set m | m in s.room.active && !Live(s.room, s.clock, m));
    AtTwice(s, p, Checking(s.room.active, {}), pass);
    RunConcat(cfg, s, [Members(p)], Lookups(p, order));
  }

  /** Undisturbed, the commands of a pass do to the room what the pass as a function does. */
  lemma PassAlone(cfg: Config, s: Sys, p: Pod, order: seq<Token>)
    requires PassOf(s, p) == Resting && Enumerates(order, s.room.active)
    ensures Run(cfg, s, PassEvents(p, order)) == At(s, p, Resting).(room := Heartbeat(s.room, s.clock))
  {
    var expired := set m | m in s.room.active && !Live(s.room, s.clock, m);
    MembersAlone(cfg, s, p, order);
    RunConcat(cfg, s, [Members(p)] + Lookups(p, order), [Forget(p), ReadClock(p), Range(p), Unqueue(p), Unbeat(p)]);
    AtTwice(s, p, Checking({}, expired), Resting);
    RestAlone(cfg, At(s, p, Checking({}, expired)), p, expired);
    assert s.room.active - expired == Heartbeat(s.room, s.clock).active;
  }

  /**
   * After an undisturbed pass the active set is exactly the users with a live session, and the
   * queue holds exactly the earlier waiters who were not silent.
   */
  lemma SweepExact(cfg: Config, s: Sys, p: Pod, order: seq<Token>)
    requires LiveAreActive(s) && PassOf(s, p) == Resting && Enumerates(order, s.room.active)
    ensures var t := Run(cfg, s, PassEvents(p, order));
      && (forall u :: u in t.room.active <==> Live(t.room, t.clock, u))
      && (forall u :: u in t.room.waiting <==>
            u in s.room.waiting && !(u in s.room.beats && 0.0 <= s.room.beats[u] <= s.clock - 30.0))
      && (forall u :: !Silent(t.room, t.clock, u))
  {
    PassAlone(cfg, s, p, order);
    var t := Run(cfg, s, PassEvents(p, order));
    forall u
      ensures u in t.room.active <==> Live(t.room, t.clock, u)
    {
      assert Live(t.room, t.clock, u) == Live(s.room, s.clock, u);
    }
  }
}
