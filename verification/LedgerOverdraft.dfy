/**
 * Whether a debit the gate lets through can overdraw an account: what loads in flight miss, when the
 * balance check is safe over whole runs, and runs from the empty bank on which it is not.
 */
module LedgerOverdraft {
  import opened Wrappers
  import opened Ledger
  import opened LedgerCache
  import opened LedgerWriter

  // ---------- loads in flight miss credits only ----------

  /** No row since its balance query debits an account that is loading. */
  ghost predicate NoDebitMissed(cfg: Config, b: Bank) {
    BankInv(cfg, b) &&
    forall a :: a in b.sys.loading && b.sys.loading[a].balanceLen <= |b.sys.ledger| ==>
      Debits(b.sys.ledger[b.sys.loading[a].balanceLen..], a, cfg.local) == 0
  }

  /** No debit is saved while its account, evicted since the debit was judged, is loading again. */
  ghost predicate SavesInTime(cfg: Config, b: Bank, e: LedgerWriter.Event) {
    Saves(b, e) && b.work.value.t.fromRoute == cfg.local ==> b.work.value.t.fromAcct !in b.sys.loading
  }

  lemma DebitsNext(l: seq<Txn>, k: nat, t: Txn, a: Account, local: Routing)
    requires k <= |l|
    ensures Debits((l + [t])[k..], a, local) == Debits(l[k..], a, local) + if IsDebit(t, a, local) then t.amount else 0
  {
    assert (l + [t])[k..] == l[k..] + [t];
    NetConcat(l[k..], [t], a, local);
    NetOne(t, a, local);
  }

  lemma SaveMisses(cfg: Config, b: Bank)
    requires NoDebitMissed(cfg, b) && Saves(b, Save)
    ensures NoDebitMissed(cfg, DoSave(b)) <==> SavesInTime(cfg, b, Save)
  {
    var c := DoSave(b);
    var t := b.work.value.t;
    StepEffect(cfg, b, Save);
    forall a | a in b.sys.loading
      ensures b.sys.loading[a].balanceLen <= |b.sys.ledger|
      ensures Debits(c.sys.ledger[b.sys.loading[a].balanceLen..], a, cfg.local) == if IsDebit(t, a, cfg.local) then t.amount else 0
    {
      assert LoadOk(cfg, b.sys.ledger, b.sys.loading[a], a);
      DebitsNext(b.sys.ledger, b.sys.loading[a].balanceLen, t, a, cfg.local);
    }
  }

  lemma BankLoadsFrom(cfg: Config, b: Bank, e: LedgerWriter.Event, a: Account)
    requires a in LedgerWriter.Apply(cfg, b, e).sys.loading
    ensures LoadFrom(b.sys, LedgerWriter.Apply(cfg, b, e).sys.loading[a], a)
  {
    if e.Cache? && !e.e.Append? {
      LoadsFrom(cfg, b.sys, e.e, a);
    } else if e.Submit? {
      LoadsFrom(cfg, b.sys, AskBalance(e.t.fromAcct), a);
    }
  }

  lemma MissedStepIff(cfg: Config, b: Bank, e: LedgerWriter.Event)
    requires NoDebitMissed(cfg, b)
    ensures NoDebitMissed(cfg, LedgerWriter.Apply(cfg, b, e)) <==> SavesInTime(cfg, b, e)
  {
    if Saves(b, e) {
      SaveMisses(cfg, b);
    } else {
      var c := LedgerWriter.Apply(cfg, b, e);
      StepEffect(cfg, b, e);
      forall a | a in c.sys.loading && c.sys.loading[a].balanceLen <= |c.sys.ledger|
        ensures Debits(c.sys.ledger[c.sys.loading[a].balanceLen..], a, cfg.local) == 0
      {
        BankLoadsFrom(cfg, b, e, a);
        if c.sys.loading[a].balanceLen == |b.sys.ledger| { assert b.sys.ledger[|b.sys.ledger|..] == []; }
      }
    }
  }

  /** No load in flight ever misses a debit if and only if every debit of the run is saved in time. */
  lemma {:induction false} NoDebitMissedIff(cfg: Config, es: seq<LedgerWriter.Event>)
    ensures Always(cfg, EMPTY, es, b => NoDebitMissed(cfg, b)) <==> Along(cfg, EMPTY, es, (b, e) => SavesInTime(cfg, b, e))
  {
    if es != [] {
      NoDebitMissedIff(cfg, es[..|es| - 1]);
      var m := LedgerWriter.Run(cfg, EMPTY, es[..|es| - 1]);
      if NoDebitMissed(cfg, m) { MissedStepIff(cfg, m, es[|es| - 1]); }
    }
  }

  /** Nor does an entry, among the rows delivered between its query and its installation. */
  ghost predicate EntryClean(cfg: Config, l: seq<Txn>, e: Entry, a: Account) {
    e.balanceLen <= e.loadPos <= |l| ==> Debits(l[e.balanceLen..e.loadPos], a, cfg.local) == 0
  }

  ghost predicate Clean(cfg: Config, b: Bank) {
    && NoDebitMissed(cfg, b) && AllPositive(b.sys.ledger)
    && (forall a :: a in b.sys.cache ==> EntryClean(cfg, b.sys.ledger, b.sys.cache[a], a))
  }

  lemma DebitsPart(l: seq<Txn>, k: nat, m: nat, a: Account, local: Routing)
    requires AllPositive(l) && k <= m <= |l| && Debits(l[k..], a, local) == 0
    ensures Debits(l[k..m], a, local) == 0
  {
    assert l[k..] == l[k..m] + l[m..];
    NetConcat(l[k..m], l[m..], a, local);
    DebitsZeroIff(l[k..m], a, local);
    DebitsZeroIff(l[m..], a, local);
  }

  lemma BankEntriesFrom(cfg: Config, b: Bank, e: LedgerWriter.Event, a: Account)
    requires BankInv(cfg, b) && a in LedgerWriter.Apply(cfg, b, e).sys.cache
    ensures EntryFrom(b.sys, LedgerWriter.Apply(cfg, b, e).sys.cache[a], a)
  {
    if e.Cache? && !e.e.Append? {
      EntriesFrom(cfg, b.sys, e.e, a);
    } else {
      assert LedgerWriter.Apply(cfg, b, e).sys.cache == b.sys.cache;
    }
  }

  lemma CleanStep(cfg: Config, b: Bank, e: LedgerWriter.Event)
    requires Clean(cfg, b) && SavesInTime(cfg, b, e)
    ensures Clean(cfg, LedgerWriter.Apply(cfg, b, e))
  {
    var c := LedgerWriter.Apply(cfg, b, e);
    StepEffect(cfg, b, e);
    MissedStepIff(cfg, b, e);
    forall a | a in c.sys.cache
      ensures EntryClean(cfg, c.sys.ledger, c.sys.cache[a], a)
    {
      BankEntriesFrom(cfg, b, e, a);
      CleanEntry(cfg, b, c, a);
    }
  }

  lemma CleanEntry(cfg: Config, b: Bank, c: Bank, a: Account)
    requires Clean(cfg, b) && b.sys.ledger <= c.sys.ledger && a in c.sys.cache
    requires EntryFrom(b.sys, c.sys.cache[a], a)
    ensures EntryClean(cfg, c.sys.ledger, c.sys.cache[a], a)
  {
    var f := c.sys.cache[a];
    if a in b.sys.cache && SameLoad(b.sys.cache[a], f) {
      assert BalanceOk(cfg, b.sys.ledger, b.sys.pos, b.sys.cache[a], a);
      assert EntryClean(cfg, b.sys.ledger, b.sys.cache[a], a);
      SameSlice(b.sys.ledger, c.sys.ledger, f.balanceLen, f.loadPos);
    } else if f.balanceLen <= f.loadPos {
      assert LoadOk(cfg, b.sys.ledger, b.sys.loading[a], a);
      DebitsPart(b.sys.ledger, f.balanceLen, f.loadPos, a, cfg.local);
      SameSlice(b.sys.ledger, c.sys.ledger, f.balanceLen, f.loadPos);
    }
  }

  lemma SameSlice(l: seq<Txn>, m: seq<Txn>, i: nat, k: nat)
    requires l <= m && k <= |l|
    ensures i <= k ==> m[i..k] == l[i..k]
  {
  }

  lemma {:induction false} CleanRun(cfg: Config, b: Bank, es: seq<LedgerWriter.Event>)
    requires Clean(cfg, b) && Along(cfg, b, es, (x, e) => SavesInTime(cfg, x, e))
    ensures Clean(cfg, LedgerWriter.Run(cfg, b, es))
  {
    if es != [] {
      CleanRun(cfg, b, es[..|es| - 1]);
      CleanStep(cfg, LedgerWriter.Run(cfg, b, es[..|es| - 1]), es[|es| - 1]);
    }
  }

  /**
   * On every run whose debits are saved in time a load can only understate: in flight it is at most
   * the account's net, and installed after the reader has passed its query it is short of the
   * net at the reader's position by exactly the credits delivered in between.
   */
  lemma LoadUnderstates(cfg: Config, es: seq<LedgerWriter.Event>, a: Account)
    requires Along(cfg, EMPTY, es, (x, e) => SavesInTime(cfg, x, e))
    ensures var s := LedgerWriter.Run(cfg, EMPTY, es).sys;
      && (a in s.loading ==> s.loading[a].balance <= Net(s.ledger, a, cfg.local))
      && (a in s.cache ==> Placed(s.ledger, s.pos, s.cache[a]))
    ensures var s := LedgerWriter.Run(cfg, EMPTY, es).sys;
      a in s.cache && s.cache[a].balanceLen <= s.cache[a].loadPos ==>
        var missed := Credits(s.ledger[s.cache[a].balanceLen..s.cache[a].loadPos], a, cfg.local);
        missed >= 0 && s.cache[a].balance == Net(s.ledger[..s.pos], a, cfg.local) - missed
  {
    CleanRun(cfg, EMPTY, es);
    NeverHidden(cfg, EMPTY, es);
    var s := LedgerWriter.Run(cfg, EMPTY, es).sys;
    if a in s.loading { LoadingSound(cfg, s, a); }
    if a in s.cache { CachedSound(cfg, s, a); }
  }

  lemma LoadingSound(cfg: Config, s: Sys, a: Account)
    requires Inv(cfg, s) && AllPositive(s.ledger) && a in s.loading
    requires var k := s.loading[a].balanceLen;
      k <= |s.ledger| ==> Debits(s.ledger[k..], a, cfg.local) == 0 && Hidden(s.ledger[..k], a, cfg.local) == 0
    ensures s.loading[a].balance <= Net(s.ledger, a, cfg.local)
  {
    assert LoadOk(cfg, s.ledger, s.loading[a], a);
    var k := s.loading[a].balanceLen;
    LoadedIsNetPlusHidden(s.ledger[..k], a, cfg.local);
    NetSplit(s.ledger, k, a, cfg.local);
    CreditsNonNegative(s.ledger[k..], a, cfg.local);
  }

  lemma CachedSound(cfg: Config, s: Sys, a: Account)
    requires Inv(cfg, s) && AllPositive(s.ledger) && a in s.cache && EntryClean(cfg, s.ledger, s.cache[a], a)
    requires s.cache[a].balanceLen <= |s.ledger| ==> Hidden(s.ledger[..s.cache[a].balanceLen], a, cfg.local) == 0
    ensures Placed(s.ledger, s.pos, s.cache[a])
    ensures s.cache[a].balanceLen <= s.cache[a].loadPos ==>
      var missed := Credits(s.ledger[s.cache[a].balanceLen..s.cache[a].loadPos], a, cfg.local);
      && missed >= 0 && s.cache[a].balance == Net(s.ledger[..s.pos], a, cfg.local) - missed
      && Drift(cfg, s.ledger, s.cache[a], a) == -missed
  {
    var e := s.cache[a];
    assert BalanceOk(cfg, s.ledger, s.pos, e, a);
    BalanceIsDrift(cfg, s.ledger, s.pos, e, a);
    DriftIs(cfg, s.ledger, e, a);
    if e.balanceLen <= e.loadPos { CreditsNonNegative(s.ledger[e.balanceLen..e.loadPos], a, cfg.local); }
  }

  // ---------- no overdraft ----------

  lemma SolventExtends(l: seq<Txn>, t: Txn, local: Routing)
    requires Solvent(l, local) && t.amount > 0 && !SelfTransfer(t)
    requires t.fromRoute == local ==> t.amount <= Net(l, t.fromAcct, local)
    ensures Solvent(l + [t], local)
  {
    forall k, a | 0 <= k <= |l| + 1
      ensures Net((l + [t])[..k], a, local) >= 0
    {
      if k <= |l| {
        assert (l + [t])[..k] == l[..k];
      } else {
        assert (l + [t])[..k] == l + [t];
        assert l == l[..|l|];
        NetConcat(l, [t], a, local);
        NetOne(t, a, local);
        assert Net(l[..|l|], a, local) >= 0;
      }
    }
  }

  /** The balance a debit at work was given is no more than the account holds, unless nothing passes. */
  ghost predicate WorkSound(cfg: Config, b: Bank) {
    b.work.Some? && b.work.value.Judged? && b.work.value.t.fromRoute == cfg.local ==>
      b.work.value.balance <= 0 || b.work.value.balance <= Net(b.sys.ledger, b.work.value.t.fromAcct, cfg.local)
  }

  ghost predicate SolventInv(cfg: Config, b: Bank) {
    Clean(cfg, b) && Solvent(b.sys.ledger, cfg.local) && WorkSound(cfg, b)
  }

  /** A debit that is judged by a cached balance is so in a sound state. */
  ghost predicate JudgedSoundly(cfg: Config, b: Bank, e: LedgerWriter.Event) {
    e.Submit? && WellFormed(cfg, b, e.authed, e.t) && e.t.fromRoute == cfg.local && e.t.fromAcct in b.sys.cache ==>
      Sound(cfg, b.sys, e.t.fromAcct)
  }

  lemma SaveSolvent(cfg: Config, b: Bank)
    requires SolventInv(cfg, b) && Saves(b, Save)
    ensures Solvent(DoSave(b).sys.ledger, cfg.local)
  {
    StepEffect(cfg, b, Save);
    SolventExtends(b.sys.ledger, b.work.value.t, cfg.local);
  }

  lemma NewlySound(cfg: Config, b: Bank, e: LedgerWriter.Event)
    requires SolventInv(cfg, b) && JudgedSoundly(cfg, b, e) && !Saves(b, e)
    ensures WorkSound(cfg, LedgerWriter.Apply(cfg, b, e))
  {
    var c := LedgerWriter.Apply(cfg, b, e);
    StepEffect(cfg, b, e);
    if c.work.Some? && c.work.value.Judged? && c.work.value.t.fromRoute == cfg.local {
      JudgedFrom(cfg, b, e);
      var a := c.work.value.t.fromAcct;
      if a in b.sys.loading {
        assert LoadOk(cfg, b.sys.ledger, b.sys.loading[a], a);
        SolventHidesNothing(b.sys.ledger, b.sys.loading[a].balanceLen, a, cfg.local);
        LoadingSound(cfg, b.sys, a);
      }
      if a in b.sys.cache { CachedIs(cfg, b.sys, a); }
    }
  }

  lemma SolventStep(cfg: Config, b: Bank, e: LedgerWriter.Event)
    requires SolventInv(cfg, b) && SavesInTime(cfg, b, e) && JudgedSoundly(cfg, b, e)
    ensures SolventInv(cfg, LedgerWriter.Apply(cfg, b, e))
  {
    CleanStep(cfg, b, e);
    if Saves(b, e) {
      SaveSolvent(cfg, b);
    } else {
      StepEffect(cfg, b, e);
      NewlySound(cfg, b, e);
    }
  }

  /**
   * If every debit judged by a cached balance is so in a sound state, and every debit is saved in
   * time, no prefix of the ledger of any run overdraws anyone; the debits that wait for a load
   * need no condition.
   */
  lemma {:induction false} SoundChecksSuffice(cfg: Config, b: Bank, es: seq<LedgerWriter.Event>)
    requires SolventInv(cfg, b)
    requires Along(cfg, b, es, (x, e) => SavesInTime(cfg, x, e) && JudgedSoundly(cfg, x, e))
    ensures SolventInv(cfg, LedgerWriter.Run(cfg, b, es))
  {
    if es != [] {
      SoundChecksSuffice(cfg, b, es[..|es| - 1]);
      SolventStep(cfg, LedgerWriter.Run(cfg, b, es[..|es| - 1]), es[|es| - 1]);
    }
  }

  /** The reader has delivered every row, and had passed the query of a's entry when it was installed. */
  predicate CaughtUp(s: Sys, a: Account)
    requires a in s.cache
  {
    s.pos == |s.ledger| && s.cache[a].balanceLen <= s.cache[a].loadPos
  }

  ghost predicate JudgedCaughtUp(cfg: Config, b: Bank, e: LedgerWriter.Event) {
    e.Submit? && WellFormed(cfg, b, e.authed, e.t) && e.t.fromRoute == cfg.local && e.t.fromAcct in b.sys.cache ==>
      CaughtUp(b.sys, e.t.fromAcct)
  }

  lemma CaughtUpSound(cfg: Config, b: Bank, a: Account)
    requires SolventInv(cfg, b) && a in b.sys.cache && CaughtUp(b.sys, a)
    ensures Sound(cfg, b.sys, a)
  {
    var s := b.sys;
    assert BalanceOk(cfg, s.ledger, s.pos, s.cache[a], a);
    SolventHidesNothing(s.ledger, s.cache[a].balanceLen, a, cfg.local);
    CachedSound(cfg, s, a);
    assert s.ledger[s.pos..] == [];
  }

  /**
   * If the reader is caught up whenever a debit is judged by a cached balance, no entry counts rows
   * the reader had not delivered when it was installed, and every debit is saved in time, then every
   * local account is nonnegative on every prefix of the ledger of every run.
   */
  lemma {:induction false} NoOverdraft(cfg: Config, b: Bank, es: seq<LedgerWriter.Event>)
    requires SolventInv(cfg, b)
    requires Along(cfg, b, es, (x, e) => SavesInTime(cfg, x, e) && JudgedCaughtUp(cfg, x, e))
    ensures SolventInv(cfg, LedgerWriter.Run(cfg, b, es))
    ensures var l := LedgerWriter.Run(cfg, b, es).sys.ledger;
      forall k, a :: 0 <= k <= |l| ==>
        Net(l[..k], a, cfg.local) >= 0 && LoadedBalance(l[..k], a, cfg.local) == Net(l[..k], a, cfg.local)
  {
    if es != [] {
      var m := LedgerWriter.Run(cfg, b, es[..|es| - 1]);
      var e := es[|es| - 1];
      NoOverdraft(cfg, b, es[..|es| - 1]);
      if e.Submit? && WellFormed(cfg, m, e.authed, e.t) && e.t.fromRoute == cfg.local && e.t.fromAcct in m.sys.cache {
        CaughtUpSound(cfg, m, e.t.fromAcct);
      }
      SolventStep(cfg, m, e);
    }
    var l := LedgerWriter.Run(cfg, b, es).sys.ledger;
    forall k, a | 0 <= k <= |l|
      ensures LoadedBalance(l[..k], a, cfg.local) == Net(l[..k], a, cfg.local)
    {
      SolventHidesNothing(l, k, a, cfg.local);
    }
  }

  /** The empty bank is where such runs begin. */
  lemma EmptyIsSolvent(cfg: Config)
    ensures SolventInv(cfg, EMPTY) && HiddenInv(cfg, EMPTY)
  {
  }

  // ---------- runs that overdraw ----------

  /** A payment into the account from another bank. */
  predicate PaysIn(cfg: Config, t: Txn, a: Account) {
    t.fromRoute != cfg.local && IsCredit(t, a, cfg.local)
  }

  /** A payment out of the account to another bank. */
  predicate PaysOut(cfg: Config, t: Txn, a: Account) {
    t.toRoute != cfg.local && IsDebit(t, a, cfg.local)
  }

  function Deposited(payIn: Txn, pos: nat, cache: map<Account, Entry>): Bank {
    Bank(Sys([payIn], pos, cache, map[]), {payIn.uuid}, None)
  }

  lemma DepositRun(cfg: Config, other: Account, payIn: Txn)
    requires Validate(cfg.local, other, payIn).None? && payIn.fromRoute != cfg.local
    ensures LedgerWriter.Run(cfg, EMPTY, [Submit(Some(other), payIn), Save]) == Deposited(payIn, 0, map[])
  {
    var b1 := EMPTY.(work := Some(Judged(other, payIn, payIn.amount)));
    var b2 := Deposited(payIn, 0, map[]);
    assert [] + [payIn] == [payIn];
    LedgerWriter.Traced(cfg, [EMPTY, b1, b2], [Submit(Some(other), payIn), Save]);
  }

  lemma DepositLoaded(cfg: Config, payIn: Txn, a: Account)
    requires PaysIn(cfg, payIn, a)
    ensures LoadedBalance([payIn], a, cfg.local) == payIn.amount
    ensures Net([payIn], a, cfg.local) == payIn.amount
  {
    NetOne(payIn, a, cfg.local);
    LoadedIsNetPlusHidden([payIn], a, cfg.local);
    assert IsCredit([payIn][0], a, cfg.local);
  }

  function LoadEvents(a: Account): seq<LedgerWriter.Event> {
    [Cache(AskBalance(a)), Cache(AskPage(a)), Cache(LedgerCache.Store(a))]
  }

  function LoadedDeposit(cfg: Config, payIn: Txn, a: Account, pos: nat): Entry {
    Entry(payIn.amount, Page(cfg, [payIn], a), 1, 1, pos)
  }

  lemma LoadRun(cfg: Config, payIn: Txn, a: Account, pos: nat)
    requires PaysIn(cfg, payIn, a)
    ensures LedgerWriter.Run(cfg, Deposited(payIn, pos, map[]), LoadEvents(a))
         == Deposited(payIn, pos, map[a := LoadedDeposit(cfg, payIn, a, pos)])
  {
    DepositLoaded(cfg, payIn, a);
    var b0 := Deposited(payIn, pos, map[]);
    var b1 := b0.(sys := b0.sys.(loading := map[a := Asked(payIn.amount, 1)]));
    var b2 := b0.(sys := b0.sys.(loading := map[a := Paged(payIn.amount, 1, Page(cfg, [payIn], a), 1)]));
    var b3 := Deposited(payIn, pos, map[a := LoadedDeposit(cfg, payIn, a, pos)]);
    assert LedgerWriter.Apply(cfg, b2, Cache(LedgerCache.Store(a))) == b3;
    LedgerWriter.Traced(cfg, [b0, b1, b2, b3], LoadEvents(a));
  }

  /** A deposit is saved, its account is loaded, and only then the deposit is delivered. */
  function LoadBeforeDelivery(other: Account, payIn: Txn, a: Account): seq<LedgerWriter.Event> {
    [Submit(Some(other), payIn), Save] + LoadEvents(a) + [Cache(LedgerCache.Deliver)]
  }

  /**
   * A caught-up reader alone is not enough. An entry loaded between a deposit and its delivery
   * counts the deposit twice, and a debit of up to twice the deposit then goes through.
   */
  lemma DriftOverdraws(cfg: Config, other: Account, a: Account, payIn: Txn, payOut: Txn)
    requires Validate(cfg.local, other, payIn).None? && PaysIn(cfg, payIn, a)
    requires Validate(cfg.local, a, payOut).None? && PaysOut(cfg, payOut, a) && payOut.uuid != payIn.uuid
    requires payIn.amount < payOut.amount <= 2 * payIn.amount
    ensures var b := LedgerWriter.Run(cfg, EMPTY, LoadBeforeDelivery(other, payIn, a));
      var l := LedgerWriter.Run(cfg, b, [Submit(Some(a), payOut), Save]).sys.ledger;
      && b.sys.pos == |b.sys.ledger| && a in b.sys.cache && WellFormed(cfg, b, Some(a), payOut)
      && l == [payIn, payOut] && Net(l, a, cfg.local) < 0
  {
    DepositRun(cfg, other, payIn);
    LoadRun(cfg, payIn, a, 0);
    DepositLoaded(cfg, payIn, a);
    LedgerWriter.RunConcat(cfg, EMPTY, [Submit(Some(other), payIn), Save], LoadEvents(a));
    var b0 := Deposited(payIn, 0, map[a := LoadedDeposit(cfg, payIn, a, 0)]);
    var b1 := LedgerWriter.Apply(cfg, b0, Cache(LedgerCache.Deliver));
    LedgerWriter.RunConcat(cfg, EMPTY, [Submit(Some(other), payIn), Save] + LoadEvents(a), [Cache(LedgerCache.Deliver)]);
    LedgerWriter.Traced(cfg, [b0, b1], [Cache(LedgerCache.Deliver)]);
    CallbackEntry(cfg, b0.sys.cache, payIn, a);
    assert b1.sys.cache[a].balance == 2 * payIn.amount;
    PaidOut(cfg, b1, a, payOut);
    TwoNets(cfg, payIn, payOut, a);
  }

  /** A debit the cached balance covers goes straight through. */
  lemma PaidOut(cfg: Config, b: Bank, a: Account, t: Txn)
    requires WellFormed(cfg, b, Some(a), t) && PaysOut(cfg, t, a) && a in b.sys.cache && t.amount <= b.sys.cache[a].balance
    ensures LedgerWriter.Run(cfg, b, [Submit(Some(a), t), Save])
         == Bank(b.sys.(ledger := b.sys.ledger + [t]), b.remembered + {t.uuid}, None)
  {
    var b1 := b.(work := Some(Judged(a, t, b.sys.cache[a].balance)));
    LedgerWriter.Traced(cfg, [b, b1, DoSave(b1)], [Submit(Some(a), t), Save]);
  }

  lemma TwoNets(cfg: Config, payIn: Txn, payOut: Txn, a: Account)
    requires PaysIn(cfg, payIn, a) && PaysOut(cfg, payOut, a)
    ensures Net([payIn, payOut], a, cfg.local) == payIn.amount - payOut.amount
  {
    assert [payIn, payOut] == [payIn] + [payOut];
    NetConcat([payIn], [payOut], a, cfg.local);
    NetOne(payIn, a, cfg.local);
    NetOne(payOut, a, cfg.local);
  }

  /**
   * The deposit is delivered and its account loaded; a debit is judged; before it is saved the
   * account is evicted and asked for again; the debit is saved and delivered; the load ends.
   */
  function SavedDuringLoad(other: Account, a: Account, payIn: Txn, payOut: Txn): seq<LedgerWriter.Event> {
    [Submit(Some(other), payIn), Save] + [Cache(LedgerCache.Deliver)] + LoadEvents(a) + LateSave(a, payOut)
  }

  function LateSave(a: Account, payOut: Txn): seq<LedgerWriter.Event> {
    [Submit(Some(a), payOut), Cache(Evict(a)), Cache(AskBalance(a)), Cache(AskPage(a)), Save, Cache(LedgerCache.Deliver),
     Cache(LedgerCache.Store(a))]
  }

  lemma LateSaveRun(cfg: Config, a: Account, payIn: Txn, payOut: Txn)
    requires PaysIn(cfg, payIn, a) && PaysOut(cfg, payOut, a) && payOut.amount == payIn.amount
    requires Validate(cfg.local, a, payOut).None? && payOut.uuid != payIn.uuid
    ensures LedgerWriter.Run(cfg, Deposited(payIn, 1, map[a := LoadedDeposit(cfg, payIn, a, 1)]), LateSave(a, payOut))
         == Bank(Sys([payIn, payOut], 2, map[a := LoadedDeposit(cfg, payIn, a, 2)], map[]), {payIn.uuid, payOut.uuid}, None)
  {
    DepositLoaded(cfg, payIn, a);
    var b0 := Deposited(payIn, 1, map[a := LoadedDeposit(cfg, payIn, a, 1)]);
    var b1 := b0.(work := Some(Judged(a, payOut, payIn.amount)));
    var b2 := b1.(sys := b1.sys.(cache := map[]));
    var b3 := b2.(sys := b2.sys.(loading := map[a := Asked(payIn.amount, 1)]));
    var b4 := b2.(sys := b2.sys.(loading := map[a := Paged(payIn.amount, 1, Page(cfg, [payIn], a), 1)]));
    var b5 := Bank(b4.sys.(ledger := [payIn, payOut]), {payIn.uuid, payOut.uuid}, None);
    var b6 := b5.(sys := b5.sys.(pos := 2));
    var b7 := b6.(sys := Sys([payIn, payOut], 2, map[a := LoadedDeposit(cfg, payIn, a, 2)], map[]));
    assert [payIn] + [payOut] == [payIn, payOut] && {payIn.uuid} + {payOut.uuid} == {payIn.uuid, payOut.uuid};
    assert LedgerWriter.Apply(cfg, b1, Cache(Evict(a))) == b2;
    assert LedgerWriter.Apply(cfg, b4, Save) == b5;
    assert LedgerWriter.Apply(cfg, b6, Cache(LedgerCache.Store(a))) == b7;
    LedgerWriter.Traced(cfg, [b0, b1, b2, b3, b4, b5, b6, b7], LateSave(a, payOut));
  }

  /**
   * A debit saved while its account is loading again is missed by that load, and the next debit
   * overdraws the account although the reader is caught up and had passed the load's query.
   */
  lemma MissedDebitOverdraws(cfg: Config, other: Account, a: Account, payIn: Txn, payOut: Txn, again: Txn)
    requires Validate(cfg.local, other, payIn).None? && PaysIn(cfg, payIn, a)
    requires Validate(cfg.local, a, payOut).None? && PaysOut(cfg, payOut, a) && payOut.amount == payIn.amount
    requires Validate(cfg.local, a, again).None? && PaysOut(cfg, again, a) && again.amount <= payIn.amount
    requires payOut.uuid != payIn.uuid && again.uuid != payIn.uuid && again.uuid != payOut.uuid
    ensures var b := LedgerWriter.Run(cfg, EMPTY, SavedDuringLoad(other, a, payIn, payOut));
      var l := LedgerWriter.Run(cfg, b, [Submit(Some(a), again), Save]).sys.ledger;
      && a in b.sys.cache && CaughtUp(b.sys, a) && WellFormed(cfg, b, Some(a), again)
      && l == [payIn, payOut, again] && Net(l, a, cfg.local) < 0
  {
    var first := [Submit(Some(other), payIn), Save];
    DepositRun(cfg, other, payIn);
    var b0 := Deposited(payIn, 0, map[]);
    var b1 := Deposited(payIn, 1, map[]);
    assert LedgerWriter.Apply(cfg, b0, Cache(LedgerCache.Deliver)) == b1;
    LedgerWriter.Traced(cfg, [b0, b1], [Cache(LedgerCache.Deliver)]);
    LedgerWriter.RunConcat(cfg, EMPTY, first, [Cache(LedgerCache.Deliver)]);
    LoadRun(cfg, payIn, a, 1);
    LedgerWriter.RunConcat(cfg, EMPTY, first + [Cache(LedgerCache.Deliver)], LoadEvents(a));
    LateSaveRun(cfg, a, payIn, payOut);
    LedgerWriter.RunConcat(cfg, EMPTY, first + [Cache(LedgerCache.Deliver)] + LoadEvents(a), LateSave(a, payOut));
    var b := LedgerWriter.Run(cfg, EMPTY, SavedDuringLoad(other, a, payIn, payOut));
    PaidOut(cfg, b, a, again);
    assert [payIn, payOut] + [again] == [payIn, payOut, again];
    TwoNets(cfg, payIn, payOut, a);
    NetConcat([payIn, payOut], [again], a, cfg.local);
    NetOne(again, a, cfg.local);
  }
}
