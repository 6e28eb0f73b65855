/**
 * The gate in front of the ledger: authentication, duplicate check, validator and balance check,
 * one submission at a time, over the account cache of `LedgerCache`. Between the balance it gets
 * and the row it saves a submission may wait, and the cache and the reader go on meanwhile.
 */
module LedgerWriter {
  import opened Wrappers
  import opened Ledger
  import opened LedgerCache

  /** The submission at work: waiting for a load of the sender's entry, or with the balance it got. */
  datatype Submission =
    | Waiting(sender: Account, t: Txn)
    | Judged(sender: Account, t: Txn, balance: int)

  /** `remembered` holds the request uuids of the last hour. */
  datatype Bank = Bank(sys: Sys, remembered: set<string>, work: Option<Submission>)

  /** `authed` is the account the token names, if the token verifies. */
  datatype Event =
    | Submit(authed: Option<Account>, t: Txn)
    | Save
    | Forget(uuid: string)
    | Cache(e: LedgerCache.Event)

  const EMPTY := Bank(Start([], 0), {}, None)

  /** Why a submission is refused before any balance is looked up. */
  function Refused(cfg: Config, remembered: set<string>, authed: Option<Account>, t: Txn): Option<Rejection> {
    if authed.None? then Some(Unauthorized)
    else if t.uuid in remembered then Some(Duplicate)
    else Validate(cfg.local, authed.value, t)
  }

  /** A submission that gets as far as the balance check. */
  predicate WellFormed(cfg: Config, b: Bank, authed: Option<Account>, t: Txn) {
    b.work.None? && Refused(cfg, b.remembered, authed, t).None?
  }

  /**
   * A local debit gets the cached balance, or waits for the load of its entry, which it begins
   * unless one is in flight; money from another bank needs no balance.
   */
  function DoSubmit(cfg: Config, b: Bank, authed: Option<Account>, t: Txn): Bank {
    if !WellFormed(cfg, b, authed, t) then b
    else if t.fromRoute != cfg.local then b.(work := Some(Judged(authed.value, t, t.amount)))
    else if t.fromAcct in b.sys.cache then
      b.(work := Some(Judged(authed.value, t, b.sys.cache[t.fromAcct].balance)))
    else b.(sys := DoAskBalance(cfg, b.sys, t.fromAcct), work := Some(Waiting(authed.value, t)))
  }

  /** The step `e` saves the submission at work. */
  predicate Saves(b: Bank, e: Event) {
    e.Save? && b.work.Some? && b.work.value.Judged? && b.work.value.t.amount <= b.work.value.balance
  }

  function DoSave(b: Bank): Bank {
    if Saves(b, Save) then
      var t := b.work.value.t;
      Bank(b.sys.(ledger := b.sys.ledger + [t]), b.remembered + {t.uuid}, None)
    else if b.work.Some? && b.work.value.Judged? then b.(work := None)
    else b
  }

  /** The end of a load wakes the submission that waits for it; a failed load answers -1. */
  function Woken(s: Sys, work: Option<Submission>): Option<Submission> {
    if work.None? || work.value.Judged? || work.value.t.fromAcct in s.loading then work
    else
      var w := work.value;
      Some(Judged(w.sender, w.t, if w.t.fromAcct in s.cache then s.cache[w.t.fromAcct].balance else -1))
  }

  /** The cache protocol's own events; rows are appended by saving only. */
  function DoCache(cfg: Config, b: Bank, e: LedgerCache.Event): Bank {
    if e.Append? then b
    else
      var s := LedgerCache.Apply(cfg, b.sys, e);
      Bank(s, b.remembered, Woken(s, b.work))
  }

  function Apply(cfg: Config, b: Bank, e: Event): Bank {
    match e
    case Submit(authed, t) => DoSubmit(cfg, b, authed, t)
    case Save => DoSave(b)
    case Forget(u) => b.(remembered := b.remembered - {u})
    case Cache(c) => DoCache(cfg, b, c)
  }

  function Run(cfg: Config, b: Bank, es: seq<Event>): Bank {
    if es == [] then b else Apply(cfg, Run(cfg, b, es[..|es| - 1]), es[|es| - 1])
  }

  lemma {:induction false} RunConcat(cfg: Config, s: Bank, a: seq<Event>, b: seq<Event>)
    ensures Run(cfg, s, a + b) == Run(cfg, Run(cfg, s, a), b)
  {
    if b == [] {
      assert a + b == a;
    } else {
      var n := |b| - 1;
      assert (a + b)[..|a + b| - 1] == a + b[..n];
      RunConcat(cfg, s, a, b[..n]);
    }
  }

  /** A run told state by state. */
  lemma {:induction false} Traced(cfg: Config, states: seq<Bank>, es: seq<Event>)
    requires |states| == |es| + 1
    requires forall i :: 0 <= i < |es| ==> states[i + 1] == Apply(cfg, states[i], es[i])
    ensures Run(cfg, states[0], es) == states[|es|]
    decreases |es|
  {
    if es != [] { Traced(cfg, states[..|es|], es[..|es| - 1]); }
  }

  /** Every step of the run, in the state it is taken, meets the condition. */
  ghost predicate Along(cfg: Config, b: Bank, es: seq<Event>, ok: (Bank, Event) -> bool) {
    es != [] ==> Along(cfg, b, es[..|es| - 1], ok) && ok(Run(cfg, b, es[..|es| - 1]), es[|es| - 1])
  }

  /** Every state of the run, the first included, has the property. */
  ghost predicate Always(cfg: Config, b: Bank, es: seq<Event>, good: Bank -> bool) {
    (es != [] ==> Always(cfg, b, es[..|es| - 1], good)) && good(Run(cfg, b, es))
  }

  // ---------- the ledger changes only by accepted rows ----------

  ghost predicate WorkOk(cfg: Config, b: Bank) {
    b.work.Some? ==>
      var w := b.work.value;
      && Validate(cfg.local, w.sender, w.t).None? && w.t.uuid !in b.remembered
      && (w.Waiting? ==> w.t.fromRoute == cfg.local && w.t.fromAcct in b.sys.loading)
  }

  ghost predicate BankInv(cfg: Config, b: Bank) {
    Inv(cfg, b.sys) && WorkOk(cfg, b)
  }

  /**
   * Whatever happens, the ledger grows by exactly the row a Save accepts, and that row is positive,
   * not to self, not remembered and, when local, from the account the token names.
   */
  lemma StepEffect(cfg: Config, b: Bank, e: Event)
    requires BankInv(cfg, b)
    ensures var c := Apply(cfg, b, e); var saved := Saves(b, e);
      && BankInv(cfg, c)
      && c.sys.ledger == (if saved then b.sys.ledger + [b.work.value.t] else b.sys.ledger)
      && c.remembered == (if saved then b.remembered + {b.work.value.t.uuid}
                          else if e.Forget? then b.remembered - {e.uuid} else b.remembered)
      && (saved ==>
            var w := b.work.value;
            && w.t.amount > 0 && !SelfTransfer(w.t) && w.t.uuid !in b.remembered
            && (w.t.fromRoute == cfg.local ==> w.t.fromAcct == w.sender))
  {
    match e
    case Submit(authed, t) => SubmitInv(cfg, b, authed, t);
    case Save => if Saves(b, e) { LedgerCache.StepInv(cfg, b.sys, LedgerCache.Append(b.work.value.t)); }
    case Forget(_) =>
    case Cache(c) => CacheInv(cfg, b, c);
  }

  lemma SubmitInv(cfg: Config, b: Bank, authed: Option<Account>, t: Txn)
    requires BankInv(cfg, b)
    ensures BankInv(cfg, DoSubmit(cfg, b, authed, t))
    ensures DoSubmit(cfg, b, authed, t).sys.ledger == b.sys.ledger
  {
    LedgerCache.StepInv(cfg, b.sys, LedgerCache.AskBalance(t.fromAcct));
  }

  lemma CacheInv(cfg: Config, b: Bank, e: LedgerCache.Event)
    requires BankInv(cfg, b)
    ensures BankInv(cfg, DoCache(cfg, b, e)) && DoCache(cfg, b, e).sys.ledger == b.sys.ledger
  {
    LedgerCache.StepInv(cfg, b.sys, e);
  }

  /** A submission is over only with its Save; until then no row is added. */
  lemma WorkStep(cfg: Config, b: Bank, e: Event)
    requires BankInv(cfg, b) && b.work.Some? && e != Save
    ensures var c := Apply(cfg, b, e);
      && c.sys.ledger == b.sys.ledger && c.work.Some? && c.work.value.t == b.work.value.t
      && (b.work.value.Judged? ==> c.work == b.work)
  {
    StepEffect(cfg, b, e);
  }

  lemma {:induction false} WorkWaits(cfg: Config, b: Bank, es: seq<Event>)
    requires BankInv(cfg, b) && b.work.Some? && Save !in es
    ensures var c := Run(cfg, b, es);
      && BankInv(cfg, c) && c.sys.ledger == b.sys.ledger && c.work.Some? && c.work.value.t == b.work.value.t
      && (b.work.value.Judged? ==> c.work == b.work)
  {
    if es != [] {
      WorkWaits(cfg, b, es[..|es| - 1]);
      StepEffect(cfg, Run(cfg, b, es[..|es| - 1]), es[|es| - 1]);
      WorkStep(cfg, Run(cfg, b, es[..|es| - 1]), es[|es| - 1]);
    }
  }

  // ---------- the balance check ----------

  lemma CachedIs(cfg: Config, s: Sys, a: Account)
    requires Inv(cfg, s) && a in s.cache
    ensures Placed(s.ledger, s.pos, s.cache[a])
    ensures s.cache[a].balance - Net(s.ledger, a, cfg.local)
         == Drift(cfg, s.ledger, s.cache[a], a) - Net(s.ledger[s.pos..], a, cfg.local)
  {
    assert BalanceOk(cfg, s.ledger, s.pos, s.cache[a], a);
    BalanceIsDrift(cfg, s.ledger, s.pos, s.cache[a], a);
    NetSplit(s.ledger, s.pos, a, cfg.local);
  }

  /** A debit of m judged by the cached balance would pass the check and leave the account negative. */
  predicate Overdraws(cfg: Config, s: Sys, a: Account, m: int)
    requires a in s.cache
  {
    0 < m <= s.cache[a].balance && Net(s.ledger, a, cfg.local) - m < 0
  }

  /** Nothing passes, or the drift is at most the net of the undelivered rows. */
  ghost predicate Sound(cfg: Config, s: Sys, a: Account)
    requires a in s.cache
  {
    && Placed(s.ledger, s.pos, s.cache[a])
    && (s.cache[a].balance <= 0
        || Drift(cfg, s.ledger, s.cache[a], a) <= Net(s.ledger[s.pos..], a, cfg.local))
  }

  /**
   * When the check is sound: no debit it lets through overdraws the account if and only if it lets
   * none through at all, or the entry's drift is at most the net of the undelivered rows.
   */
  lemma CheckSoundIff(cfg: Config, s: Sys, a: Account)
    requires Inv(cfg, s) && a in s.cache
    ensures (forall m: int :: !Overdraws(cfg, s, a, m)) <==> Sound(cfg, s, a)
  {
    CachedIs(cfg, s, a);
    var m := s.cache[a].balance;
    assert Overdraws(cfg, s, a, m) <==> 0 < m && Net(s.ledger, a, cfg.local) < m;
  }

  /**
   * A well-formed debit that finds its account cached is saved if and only if the balance cached
   * then covers it, whatever happens before it is saved; and judged without positive drift it
   * leaves no less than minus the debits undelivered then.
   */
  lemma CachedDebit(cfg: Config, b: Bank, authed: Option<Account>, t: Txn, es: seq<Event>)
    requires BankInv(cfg, b) && WellFormed(cfg, b, authed, t) && t.fromRoute == cfg.local
    requires t.fromAcct in b.sys.cache && Save !in es
    ensures var l := b.sys.ledger; var a := t.fromAcct; var e := b.sys.cache[a];
      var after := Apply(cfg, Run(cfg, DoSubmit(cfg, b, authed, t), es), Save).sys.ledger;
      && after == (if t.amount <= e.balance then l + [t] else l)
      && e.balanceLen <= |l| && e.loadPos <= |l| && b.sys.pos <= |l|
      && (t.amount <= e.balance && Drift(cfg, l, e, a) <= 0 && AllPositive(l) ==>
            Net(after, a, cfg.local) >= -Debits(l[b.sys.pos..], a, cfg.local))
  {
    var s := b.sys;
    var a := t.fromAcct;
    StepEffect(cfg, b, Submit(authed, t));
    WorkWaits(cfg, DoSubmit(cfg, b, authed, t), es);
    CachedIs(cfg, s, a);
    NetConcat(s.ledger, [t], a, cfg.local);
    NetOne(t, a, cfg.local);
    if AllPositive(s.ledger) { CreditsNonNegative(s.ledger[s.pos..], a, cfg.local); }
  }

  // ---------- what is accepted ----------

  /** Account numbers of ten digits, routing numbers of nine. */
  predicate WellNumbered(t: Txn) {
    && |t.fromAcct| == 10 && |t.toAcct| == 10 && |t.fromRoute| == 9 && |t.toRoute| == 9
    && (forall i :: 0 <= i < 10 ==> '0' <= t.fromAcct[i] <= '9' && '0' <= t.toAcct[i] <= '9')
    && (forall i :: 0 <= i < 9 ==> '0' <= t.fromRoute[i] <= '9' && '0' <= t.toRoute[i] <= '9')
  }

  /** All the source asks of a transaction before any balance. */
  predicate Acceptable(local: Routing, remembered: set<string>, authed: Option<Account>, t: Txn) {
    && authed.Some? && t.uuid !in remembered && WellNumbered(t)
    && (t.fromRoute == local ==> t.fromAcct == authed.value)
    && (t.fromAcct != t.toAcct || t.fromRoute != t.toRoute)
    && t.amount > 0
  }

  /** The first of these that fails is the answer. */
  predicate AnswersInOrder(local: Routing, remembered: set<string>, authed: Option<Account>, t: Txn, r: Option<Rejection>) {
    && (authed.None? ==> r == Some(Unauthorized))
    && (authed.Some? ==>
          && (t.uuid in remembered ==> r == Some(Duplicate))
          && (t.uuid !in remembered ==>
                && (!WellNumbered(t) ==> r == Some(InvalidNumber))
                && (WellNumbered(t) && t.fromRoute == local && t.fromAcct != authed.value ==> r == Some(NotAuthenticated))
                && (WellNumbered(t) && (t.fromRoute == local ==> t.fromAcct == authed.value) ==>
                      && (t.fromAcct == t.toAcct && t.fromRoute == t.toRoute ==> r == Some(SendToSelf))
                      && (!(t.fromAcct == t.toAcct && t.fromRoute == t.toRoute) && t.amount <= 0 ==>
                            r == Some(InvalidAmount)))))
  }

  lemma RefusedIff(cfg: Config, remembered: set<string>, authed: Option<Account>, t: Txn)
    ensures Refused(cfg, remembered, authed, t).None? <==> Acceptable(cfg.local, remembered, authed, t)
    ensures AnswersInOrder(cfg.local, remembered, authed, t, Refused(cfg, remembered, authed, t))
           || Acceptable(cfg.local, remembered, authed, t)
  {
  }

  predicate NoCalls(es: seq<Event>) {
    forall i :: 0 <= i < |es| ==> !es[i].Submit? && !es[i].Save?
  }

  lemma {:induction false} StaysIdle(cfg: Config, b: Bank, es: seq<Event>)
    requires BankInv(cfg, b) && b.work.None? && NoCalls(es)
    ensures Run(cfg, b, es).work.None? && Run(cfg, b, es).sys.ledger == b.sys.ledger && BankInv(cfg, Run(cfg, b, es))
  {
    if es != [] {
      assert forall i :: 0 <= i < |es| - 1 ==> es[..|es| - 1][i] == es[i];
      StaysIdle(cfg, b, es[..|es| - 1]);
      StepEffect(cfg, Run(cfg, b, es[..|es| - 1]), es[|es| - 1]);
    }
  }

  lemma NoSave(es: seq<Event>)
    requires NoCalls(es)
    ensures Save !in es
  {
  }

  /**
   * A submission is saved, whatever happens before its Save, if and only if the token verifies, the
   * uuid is not remembered, the numbers are well formed, a local sender is the token's account, sender
   * and receiver differ in account or route, the amount is positive and, for a local sender, the
   * balance it has got by then covers the amount. Otherwise the ledger is as it was.
   */
  lemma SavedIff(cfg: Config, b: Bank, authed: Option<Account>, t: Txn, es: seq<Event>)
    requires BankInv(cfg, b) && b.work.None? && NoCalls(es)
    ensures var m := Run(cfg, Apply(cfg, b, Submit(authed, t)), es);
      var after := Apply(cfg, m, Save).sys.ledger;
      && (after == b.sys.ledger || after == b.sys.ledger + [t])
      && (after == b.sys.ledger + [t] <==>
            && authed.Some? && t.uuid !in b.remembered && WellNumbered(t)
            && (t.fromRoute == cfg.local ==> t.fromAcct == authed.value)
            && (t.fromAcct != t.toAcct || t.fromRoute != t.toRoute)
            && t.amount > 0
            && (t.fromRoute == cfg.local ==>
                  m.work.Some? && m.work.value.Judged? && t.amount <= m.work.value.balance))
  {
    var c := Apply(cfg, b, Submit(authed, t));
    RefusedIff(cfg, b.remembered, authed, t);
    StepEffect(cfg, b, Submit(authed, t));
    NoSave(es);
    if Acceptable(cfg.local, b.remembered, authed, t) {
      WorkWaits(cfg, c, es);
    } else {
      StaysIdle(cfg, c, es);
    }
  }

  /** The load a submission waits for gives it this balance. */
  function LoadWaited(cfg: Config, s: Sys, a: Account): int {
    if a in s.loading then s.loading[a].balance else LoadedBalance(s.ledger, a, cfg.local)
  }

  lemma {:induction false} WaitsFor(cfg: Config, b: Bank, es: seq<Event>, balance: int)
    requires BankInv(cfg, b) && b.work.Some? && NoCalls(es)
    requires var w := b.work.value;
      (w.Waiting? ==> b.sys.loading[w.t.fromAcct].balance == balance) && (w.Judged? ==> w.balance == balance || w.balance == -1)
    ensures var c := Run(cfg, b, es);
      && BankInv(cfg, c) && c.work.Some? && c.work.value.t == b.work.value.t
      && (c.work.value.Waiting? ==> c.sys.loading[c.work.value.t.fromAcct].balance == balance)
      && (c.work.value.Judged? ==> c.work.value.balance == balance || c.work.value.balance == -1)
  {
    if es != [] {
      assert forall i :: 0 <= i < |es| - 1 ==> es[..|es| - 1][i] == es[i];
      WaitsFor(cfg, b, es[..|es| - 1], balance);
      var m := Run(cfg, b, es[..|es| - 1]);
      StepEffect(cfg, m, es[|es| - 1]);
      WaitStep(cfg, m, es[|es| - 1], balance);
    }
  }

  lemma WaitStep(cfg: Config, b: Bank, e: Event, balance: int)
    requires BankInv(cfg, b) && b.work.Some? && !e.Submit? && !e.Save?
    requires var w := b.work.value;
      (w.Waiting? ==> b.sys.loading[w.t.fromAcct].balance == balance) && (w.Judged? ==> w.balance == balance || w.balance == -1)
    ensures var c := Apply(cfg, b, e);
      && c.work.Some? && c.work.value.t == b.work.value.t
      && (c.work.value.Waiting? ==>
            c.work.value.t.fromAcct in c.sys.loading && c.sys.loading[c.work.value.t.fromAcct].balance == balance)
      && (c.work.value.Judged? ==> c.work.value.balance == balance || c.work.value.balance == -1)
  {
    if b.work.value.Waiting? && e.Cache? && !e.e.Append? { WaitCache(cfg, b, e.e, balance); }
  }

  lemma WaitCache(cfg: Config, b: Bank, e: LedgerCache.Event, balance: int)
    requires BankInv(cfg, b) && b.work.Some? && b.work.value.Waiting? && !e.Append?
    requires b.sys.loading[b.work.value.t.fromAcct].balance == balance
    ensures var a := b.work.value.t.fromAcct; var s := LedgerCache.Apply(cfg, b.sys, e);
      && (a in s.loading ==> s.loading[a].balance == balance)
      && (a !in s.loading && a in s.cache ==> s.cache[a].balance == balance)
  {
    if e.Deliver? && b.sys.pos < |b.sys.ledger| { CallbackKeys(cfg, b.sys.cache, b.sys.ledger[b.sys.pos]); }
  }

  /**
   * The balance a local debit gets: the cached one, or that of the load in flight, or the one its own
   * load finds; -1 when the load it waits for fails.
   */
  lemma BalanceGot(cfg: Config, b: Bank, authed: Option<Account>, t: Txn, es: seq<Event>)
    requires BankInv(cfg, b) && WellFormed(cfg, b, authed, t) && t.fromRoute == cfg.local && NoCalls(es)
    ensures var m := Run(cfg, Apply(cfg, b, Submit(authed, t)), es); var a := t.fromAcct;
      && m.work.Some? && m.work.value.t == t
      && (a in b.sys.cache ==> m.work.value.Judged? && m.work.value.balance == b.sys.cache[a].balance)
      && (a !in b.sys.cache && m.work.value.Judged? ==>
            m.work.value.balance == LoadWaited(cfg, b.sys, a) || m.work.value.balance == -1)
  {
    var c := Apply(cfg, b, Submit(authed, t));
    StepEffect(cfg, b, Submit(authed, t));
    NoSave(es);
    if t.fromAcct in b.sys.cache {
      WorkWaits(cfg, c, es);
    } else {
      WaitsFor(cfg, c, es, LoadWaited(cfg, b.sys, t.fromAcct));
    }
  }

  const HOME: Routing := "123456789"
  const AWAY: Routing := "987654321"
  const ALICE: Account := "1111111111"
  const BOB: Account := "2222222222"
  const WAGES := Txn(1, "9999999999", AWAY, ALICE, HOME, 100, 1, "wages")
  const RENT := Txn(2, ALICE, HOME, BOB, HOME, 60, 2, "rent")

  /** Money comes in from another bank, and one local account pays another with it. */
  lemma LocalPayment(cfg: Config)
    requires cfg.local == HOME
    ensures var es := [Submit(Some("9999999999"), WAGES), Save, Submit(Some(ALICE), RENT),
                       Cache(AskPage(ALICE)), Cache(LedgerCache.Store(ALICE)), Save];
      var b := Run(cfg, EMPTY, es);
      && b.sys.ledger == [WAGES, RENT] && b.remembered == {"wages", "rent"} && b.work.None?
      && Net(b.sys.ledger, ALICE, HOME) == 40 && Net(b.sys.ledger, BOB, HOME) == 60
  {
    NumbersAreDigits();
    RefusedIff(cfg, {}, Some("9999999999"), WAGES);
    RefusedIff(cfg, {"wages"}, Some(ALICE), RENT);
    WagesNet();
    var b1 := EMPTY.(work := Some(Judged("9999999999", WAGES, 100)));
    var b2 := Bank(Sys([WAGES], 0, map[], map[]), {"wages"}, None);
    var b3 := Bank(Sys([WAGES], 0, map[], map[ALICE := Asked(100, 1)]), {"wages"}, Some(Waiting(ALICE, RENT)));
    var page := Page(cfg, [WAGES], ALICE);
    var b4 := b3.(sys := Sys([WAGES], 0, map[], map[ALICE := Paged(100, 1, page, 1)]));
    var b5 := Bank(Sys([WAGES], 0, map[ALICE := Entry(100, page, 1, 1, 0)], map[]), {"wages"}, Some(Judged(ALICE, RENT, 100)));
    var b6 := Bank(b5.sys.(ledger := [WAGES, RENT]), {"wages", "rent"}, None);
    assert Apply(cfg, EMPTY, Submit(Some("9999999999"), WAGES)) == b1;
    assert Apply(cfg, b1, Save) == b2;
    assert Apply(cfg, b2, Submit(Some(ALICE), RENT)) == b3;
    assert Apply(cfg, b3, Cache(AskPage(ALICE))) == b4;
    assert Apply(cfg, b4, Cache(LedgerCache.Store(ALICE))) == b5;
    assert [WAGES] + [RENT] == [WAGES, RENT];
    assert Apply(cfg, b5, Save) == b6;
    Traced(cfg, [EMPTY, b1, b2, b3, b4, b5, b6],
           [Submit(Some("9999999999"), WAGES), Save, Submit(Some(ALICE), RENT),
            Cache(AskPage(ALICE)), Cache(LedgerCache.Store(ALICE)), Save]);
  }

  lemma NumbersAreDigits()
    ensures WellNumbered(WAGES) && WellNumbered(RENT) && HOME != AWAY && ALICE != BOB
  {
    assert HOME[0] == '1' && AWAY[0] == '9' && ALICE[0] == '1' && BOB[0] == '2';
  }

  lemma WagesNet()
    ensures Net([WAGES, RENT], ALICE, HOME) == 40 && Net([WAGES, RENT], BOB, HOME) == 60
    ensures LoadedBalance([WAGES], ALICE, HOME) == 100
  {
    NumbersAreDigits();
    assert [WAGES, RENT] == [WAGES] + [RENT];
    NetConcat([WAGES], [RENT], ALICE, HOME);
    NetConcat([WAGES], [RENT], BOB, HOME);
    NetOne(WAGES, ALICE, HOME);
    NetOne(WAGES, BOB, HOME);
    NetOne(RENT, ALICE, HOME);
    NetOne(RENT, BOB, HOME);
    LoadedIsNetPlusHidden([WAGES], ALICE, HOME);
    assert IsCredit([WAGES][0], ALICE, HOME);
  }

  // ---------- a NULL balance hides nothing the gate let in ----------

  /** Every amount is positive, and on no prefix does a NULL balance hide a debit. */
  ghost predicate NothingHidden(l: seq<Txn>, local: Routing) {
    AllPositive(l) && forall k, a :: 0 <= k <= |l| ==> Hidden(l[..k], a, local) == 0
  }

  lemma UncreditedNet(l: seq<Txn>, i: nat, k: nat, a: Account, local: Routing)
    requires NothingHidden(l, local) && i <= k <= |l| && !HasCredit(l, a, local)
    ensures Net(l[..k], a, local) == 0 && Net(l[i..k], a, local) == 0
  {
    UncreditedPrefix(l, i, a, local);
    UncreditedPrefix(l, k, a, local);
    NetSplit(l[..k], i, a, local);
    assert l[..k][..i] == l[..i] && l[..k][i..] == l[i..k];
  }

  lemma UncreditedPrefix(l: seq<Txn>, k: nat, a: Account, local: Routing)
    requires NothingHidden(l, local) && k <= |l| && !HasCredit(l, a, local)
    ensures Net(l[..k], a, local) == 0
  {
    assert !HasCredit(l[..k], a, local) by {
      assert forall i :: 0 <= i < k ==> l[..k][i] == l[i];
    }
    NoCredits(l[..k], a, local);
    assert Hidden(l[..k], a, local) == 0;
  }

  /** Whatever an account without a credit is judged by, it is not positive. */
  lemma UncreditedCached(cfg: Config, s: Sys, a: Account)
    requires Inv(cfg, s) && NothingHidden(s.ledger, cfg.local) && !HasCredit(s.ledger, a, cfg.local)
    ensures a in s.cache ==> s.cache[a].balance == 0
    ensures a in s.loading ==> s.loading[a].balance == 0
  {
    if a in s.cache {
      var e := s.cache[a];
      assert BalanceOk(cfg, s.ledger, s.pos, e, a);
      UncreditedLoad(s.ledger, e.balanceLen, a, cfg.local);
      UncreditedNet(s.ledger, e.loadPos, s.pos, a, cfg.local);
    }
    if a in s.loading {
      assert LoadOk(cfg, s.ledger, s.loading[a], a);
      UncreditedLoad(s.ledger, s.loading[a].balanceLen, a, cfg.local);
    }
  }

  lemma UncreditedLoad(l: seq<Txn>, k: nat, a: Account, local: Routing)
    requires k <= |l| && !HasCredit(l, a, local)
    ensures LoadedBalance(l[..k], a, local) == 0
  {
    assert forall i :: 0 <= i < k ==> l[..k][i] == l[i];
  }

  lemma HiddenExtends(l: seq<Txn>, t: Txn, local: Routing)
    requires NothingHidden(l, local) && t.amount > 0
    requires t.fromRoute == local ==> HasCredit(l, t.fromAcct, local)
    ensures NothingHidden(l + [t], local)
  {
    var m := l + [t];
    forall k, a | 0 <= k <= |m|
      ensures Hidden(m[..k], a, local) == 0
    {
      if k <= |l| {
        assert m[..k] == l[..k];
      } else if !HasCredit(m, a, local) {
        assert m[..k] == m && l[..|l|] == l;
        assert !HasCredit(l, a, local) by {
          assert forall i :: 0 <= i < |l| ==> m[i] == l[i];
        }
        assert Hidden(l[..|l|], a, local) == 0;
        NetConcat(l, [t], a, local);
        NetOne(t, a, local);
      } else {
        assert m[..k] == m;
      }
    }
  }

  ghost predicate WorkCredited(cfg: Config, b: Bank) {
    b.work.Some? && b.work.value.Judged? && b.work.value.t.fromRoute == cfg.local && b.work.value.balance > 0 ==>
      HasCredit(b.sys.ledger, b.work.value.t.fromAcct, cfg.local)
  }

  ghost predicate HiddenInv(cfg: Config, b: Bank) {
    BankInv(cfg, b) && NothingHidden(b.sys.ledger, cfg.local) && WorkCredited(cfg, b)
  }

  /** A balance newly judged is the cached one, that of the load waited for, or no balance at all. */
  lemma JudgedFrom(cfg: Config, b: Bank, e: Event)
    requires BankInv(cfg, b) && Apply(cfg, b, e).work.Some? && Apply(cfg, b, e).work.value.Judged?
    ensures var w := Apply(cfg, b, e).work.value; var a := w.t.fromAcct;
      || Apply(cfg, b, e).work == b.work
      || w.t.fromRoute != cfg.local
      || w.balance == -1
      || (e.Submit? && WellFormed(cfg, b, e.authed, e.t) && w.t == e.t && a in b.sys.cache && w.balance == b.sys.cache[a].balance)
      || (a in b.sys.loading && w.balance == b.sys.loading[a].balance)
  {
  }

  lemma HiddenStep(cfg: Config, b: Bank, e: Event)
    requires HiddenInv(cfg, b)
    ensures HiddenInv(cfg, Apply(cfg, b, e))
  {
    var c := Apply(cfg, b, e);
    StepEffect(cfg, b, e);
    if Saves(b, e) {
      HiddenExtends(b.sys.ledger, b.work.value.t, cfg.local);
    } else if c.work.Some? && c.work.value.Judged? {
      JudgedFrom(cfg, b, e);
      var a := c.work.value.t.fromAcct;
      if !HasCredit(b.sys.ledger, a, cfg.local) { UncreditedCached(cfg, b.sys, a); }
    }
  }

  lemma {:induction false} NeverHidden(cfg: Config, b: Bank, es: seq<Event>)
    requires HiddenInv(cfg, b)
    ensures HiddenInv(cfg, Run(cfg, b, es))
  {
    if es != [] {
      NeverHidden(cfg, b, es[..|es| - 1]);
      HiddenStep(cfg, Run(cfg, b, es[..|es| - 1]), es[|es| - 1]);
    }
  }

  /**
   * On every prefix of every ledger the gate builds, however stale the cache, whatever loads are in
   * flight and whatever the accounts hold, the balance query's NULL read as zero is the true net:
   * an account without a credit never gets a debit through.
   */
  lemma NullIsZero(cfg: Config, es: seq<Event>, k: nat, a: Account)
    requires k <= |Run(cfg, EMPTY, es).sys.ledger|
    ensures var l := Run(cfg, EMPTY, es).sys.ledger;
      LoadedBalance(l[..k], a, cfg.local) == Net(l[..k], a, cfg.local)
  {
    var l := Run(cfg, EMPTY, es).sys.ledger;
    NeverHidden(cfg, EMPTY, es);
    LoadedIsNetPlusHidden(l[..k], a, cfg.local);
  }

  /**
   * Exact drift behind the gate: a cached balance is the net its query saw plus the net delivered
   * since it was installed, and it is exact if and only if those two met when it was installed.
   */
  lemma GateDrift(cfg: Config, es: seq<Event>, a: Account)
    requires a in Run(cfg, EMPTY, es).sys.cache
    ensures var s := Run(cfg, EMPTY, es).sys; Placed(s.ledger, s.pos, s.cache[a])
    ensures var s := Run(cfg, EMPTY, es).sys; var e := s.cache[a];
      && e.balance == Net(s.ledger[..e.balanceLen], a, cfg.local) + Net(s.ledger[e.loadPos..s.pos], a, cfg.local)
      && (e.balance == Net(s.ledger[..s.pos], a, cfg.local) <==>
            Net(s.ledger[..e.balanceLen], a, cfg.local) == Net(s.ledger[..e.loadPos], a, cfg.local))
  {
    NeverHidden(cfg, EMPTY, es);
    var s := Run(cfg, EMPTY, es).sys;
    var e := s.cache[a];
    assert BalanceOk(cfg, s.ledger, s.pos, e, a);
    NullIsZero(cfg, es, e.balanceLen, a);
    NetBetween(s.ledger, e.loadPos, s.pos, a, cfg.local);
  }

  // ---------- money ----------

  function SumNets(accts: seq<Account>, l: seq<Txn>, local: Routing): int {
    if accts == [] then 0 else Net(l, accts[0], local) + SumNets(accts[1..], l, local)
  }

  /** Money coming in from other banks minus money going out to them. */
  function External(l: seq<Txn>, local: Routing): int {
    if l == [] then 0
    else
      var t := l[|l| - 1];
      External(l[..|l| - 1], local)
        + (if t.toRoute == local && t.fromRoute != local then t.amount else 0)
        - (if t.fromRoute == local && t.toRoute != local then t.amount else 0)
  }

  ghost predicate Includes(accts: seq<Account>, l: seq<Txn>, local: Routing) {
    && (forall i, k :: 0 <= i < k < |accts| ==> accts[i] != accts[k])
    && (forall i :: 0 <= i < |l| ==>
          && (l[i].fromRoute == local ==> l[i].fromAcct in accts)
          && (l[i].toRoute == local ==> l[i].toAcct in accts))
  }

  lemma {:induction false} SumNetsEmpty(accts: seq<Account>, local: Routing)
    ensures SumNets(accts, [], local) == 0
  {
    if accts != [] { SumNetsEmpty(accts[1..], local); }
  }

  lemma {:induction false} SumNetsAppend(accts: seq<Account>, l: seq<Txn>, t: Txn, local: Routing)
    requires forall i, k :: 0 <= i < k < |accts| ==> accts[i] != accts[k]
    ensures SumNets(accts, l + [t], local) == SumNets(accts, l, local)
      + (if t.toRoute == local && t.toAcct in accts then t.amount else 0)
      - (if t.fromRoute == local && t.fromAcct in accts then t.amount else 0)
  {
    if accts != [] {
      SumNetsAppend(accts[1..], l, t, local);
      NetConcat(l, [t], accts[0], local);
      NetOne(t, accts[0], local);
      assert accts[0] !in accts[1..];
    }
  }

  /** Summed over all local accounts, money only enters and leaves through other banks. */
  lemma {:induction false} MoneyConserved(accts: seq<Account>, l: seq<Txn>, local: Routing)
    requires Includes(accts, l, local)
    ensures SumNets(accts, l, local) == External(l, local)
  {
    if l == [] {
      SumNetsEmpty(accts, local);
    } else {
      var init := l[..|l| - 1];
      var t := l[|l| - 1];
      assert l == init + [t];
      assert forall i :: 0 <= i < |init| ==> init[i] == l[i];
      MoneyConserved(accts, init, local);
      SumNetsAppend(accts, init, t, local);
    }
  }

  // ---------- duplicates ----------

  function Entries(l: seq<Txn>, uuid: string): nat {
    if l == [] then 0 else Entries(l[..|l| - 1], uuid) + if l[|l| - 1].uuid == uuid then 1 else 0
  }

  function Forgotten(es: seq<Event>, uuid: string): nat {
    if es == [] then 0
    else Forgotten(es[..|es| - 1], uuid) + if es[|es| - 1] == Forget(uuid) then 1 else 0
  }

  /**
   * A request uuid gives at most one row for as long as it is remembered: over a whole run, one
   * row and one more for every time its memory expired.
   */
  lemma {:induction false} OneRowPerUuid(cfg: Config, b: Bank, es: seq<Event>, uuid: string)
    requires BankInv(cfg, b)
    ensures var t := Run(cfg, b, es);
      && BankInv(cfg, t) && b.sys.ledger <= t.sys.ledger
      && Entries(t.sys.ledger, uuid) + (if uuid in b.remembered then 1 else 0)
         <= Entries(b.sys.ledger, uuid) + Forgotten(es, uuid) + (if uuid in t.remembered then 1 else 0)
  {
    if es != [] {
      var m := Run(cfg, b, es[..|es| - 1]);
      var e := es[|es| - 1];
      OneRowPerUuid(cfg, b, es[..|es| - 1], uuid);
      StepEffect(cfg, m, e);
      if Saves(m, e) {
        var l := m.sys.ledger + [m.work.value.t];
        assert l[..|l| - 1] == m.sys.ledger;
      }
    }
  }

  // ---------- one call nobody disturbs ----------

  function Loaded(cfg: Config, ledger: seq<Txn>, pos: nat, a: Account): Entry {
    Entry(LoadedBalance(ledger, a, cfg.local), Page(cfg, ledger, a), |ledger|, |ledger|, pos)
  }

  /** getAvailableBalance: the cached balance, loading it first; -1 when the load fails. */
  function Available(cfg: Config, s: Sys, a: Account, loads: bool): (Sys, int) {
    if a in s.cache then (s, s.cache[a].balance)
    else if loads then
      var e := Loaded(cfg, s.ledger, s.pos, a);
      (s.(cache := s.cache[a := e]), e.balance)
    else (s, -1)
  }

  /** `loads` says whether a cache load would succeed. */
  function Submitted(cfg: Config, b: Bank, authed: Option<Account>, t: Txn, loads: bool): (Bank, Option<Rejection>) {
    match Refused(cfg, b.remembered, authed, t)
    case Some(r) => (b, Some(r))
    case None =>
      var (sys, balance) := if t.fromRoute == cfg.local then Available(cfg, b.sys, t.fromAcct, loads) else (b.sys, t.amount);
      if balance < t.amount then (b.(sys := sys), Some(InsufficientBalance))
      else (Bank(sys.(ledger := sys.ledger + [t]), b.remembered + {t.uuid}, None), None)
  }

  function WaitEvents(cfg: Config, b: Bank, authed: Option<Account>, t: Txn, loads: bool): seq<Event> {
    if Refused(cfg, b.remembered, authed, t).Some? || t.fromRoute != cfg.local || t.fromAcct in b.sys.cache then []
    else if loads then [Cache(AskPage(t.fromAcct)), Cache(LedgerCache.Store(t.fromAcct))]
    else [Cache(Abandon(t.fromAcct))]
  }

  /** The events of one submission from beginning to end. */
  function CallEvents(cfg: Config, b: Bank, authed: Option<Account>, t: Txn, loads: bool): seq<Event> {
    [Submit(authed, t)] + WaitEvents(cfg, b, authed, t, loads) + [Save]
  }

  function AfterCall(cfg: Config, b: Bank, authed: Option<Account>, t: Txn, loads: bool): Bank {
    Run(cfg, b, CallEvents(cfg, b, authed, t, loads))
  }

  /** The events of a submission with nothing between them do what the call as a function does. */
  lemma CallAlone(cfg: Config, b: Bank, authed: Option<Account>, t: Txn, loads: bool)
    requires BankInv(cfg, b) && b.work.None? && t.fromAcct !in b.sys.loading
    ensures AfterCall(cfg, b, authed, t, loads) == Submitted(cfg, b, authed, t, loads).0
  {
    var b1 := DoSubmit(cfg, b, authed, t);
    var a := t.fromAcct;
    var wait := WaitEvents(cfg, b, authed, t, loads);
    Traced(cfg, [b, b1], [Submit(authed, t)]);
    if wait == [] {
      Traced(cfg, [b1], wait);
      CallEnds(cfg, b, b1, authed, t, wait);
    } else {
      LoadAlone(cfg, b, authed, t, loads);
      CallEnds(cfg, b, Run(cfg, b1, wait), authed, t, wait);
    }
  }

  lemma CallEnds(cfg: Config, b: Bank, m: Bank, authed: Option<Account>, t: Txn, wait: seq<Event>)
    requires Run(cfg, Run(cfg, b, [Submit(authed, t)]), wait) == m
    ensures Run(cfg, b, [Submit(authed, t)] + wait + [Save]) == DoSave(m)
  {
    RunConcat(cfg, b, [Submit(authed, t)], wait);
    RunConcat(cfg, b, [Submit(authed, t)] + wait, [Save]);
    Traced(cfg, [m, DoSave(m)], [Save]);
  }

  lemma LoadAlone(cfg: Config, b: Bank, authed: Option<Account>, t: Txn, loads: bool)
    requires WellFormed(cfg, b, authed, t) && t.fromRoute == cfg.local
    requires t.fromAcct !in b.sys.cache && t.fromAcct !in b.sys.loading
    ensures var (sys, balance) := Available(cfg, b.sys, t.fromAcct, loads);
      Run(cfg, DoSubmit(cfg, b, authed, t), WaitEvents(cfg, b, authed, t, loads))
      == Bank(sys, b.remembered, Some(Judged(authed.value, t, balance)))
  {
    var a := t.fromAcct;
    var s := b.sys;
    var b1 := DoSubmit(cfg, b, authed, t);
    var (sys, balance) := Available(cfg, s, a, loads);
    var done := Bank(sys, b.remembered, Some(Judged(authed.value, t, balance)));
    assert s.loading[a := Asked(LoadedBalance(s.ledger, a, cfg.local), |s.ledger|)] - {a} == s.loading;
    if loads {
      var paged := Paged(LoadedBalance(s.ledger, a, cfg.local), |s.ledger|, Page(cfg, s.ledger, a), |s.ledger|);
      var b2 := b1.(sys := s.(loading := s.loading[a := paged]));
      assert s.loading[a := paged] - {a} == s.loading;
      Traced(cfg, [b1, b2, done], WaitEvents(cfg, b, authed, t, loads));
    } else {
      Traced(cfg, [b1, done], WaitEvents(cfg, b, authed, t, loads));
    }
  }

  class Controller {
    const cfg: Config
    var ledger: seq<Txn>
    var pos: nat
    var cache: map<Account, Entry>
    var writerCache: set<string>

    ghost function State(): Bank
      reads this
    {
      Bank(Sys(ledger, pos, cache, map[]), writerCache, None)
    }

    constructor (cfg: Config)
      ensures this.cfg == cfg && State() == EMPTY
    {
      this.cfg := cfg;
      ledger, pos, cache, writerCache := [], 0, map[], {};
    }

    method GetAvailableBalance(a: Account, loads: bool) returns (balance: int)
      requires Inv(cfg, State().sys)
      modifies this`cache
      ensures (State().sys, balance) == Available(cfg, old(State().sys), a, loads)
      ensures Inv(cfg, State().sys)
      ensures
        && loads && Solvent(ledger, cfg.local)
        && (a in old(cache) ==> pos == |ledger| && old(cache)[a].balanceLen == old(cache)[a].loadPos)
        ==> balance == Net(ledger, a, cfg.local)
    {
      ghost var before := State().sys;
      AvailableIs(cfg, before, a, loads);
      balance := -1;
      if a !in cache && loads {
        cache := cache[a := Loaded(cfg, ledger, pos, a)];
      }
      if a in cache { balance := cache[a].balance; }
    }

    method AddTransaction(authed: Option<Account>, t: Txn, loads: bool) returns (r: Option<Rejection>)
      requires Inv(cfg, State().sys)
      modifies this`ledger, this`cache, this`writerCache
      ensures (State(), r) == Submitted(cfg, old(State()), authed, t, loads)
      ensures State() == AfterCall(cfg, old(State()), authed, t, loads)
      ensures r.None? <==>
        && authed.Some? && t.uuid !in old(writerCache) && WellNumbered(t)
        && (t.fromRoute == cfg.local ==> t.fromAcct == authed.value)
        && (t.fromAcct != t.toAcct || t.fromRoute != t.toRoute)
        && t.amount > 0
        && (t.fromRoute == cfg.local ==> Covers(cfg, old(State()).sys, t, loads))
      ensures Acceptable(cfg.local, old(writerCache), authed, t) || AnswersInOrder(cfg.local, old(writerCache), authed, t, r)
      ensures Acceptable(cfg.local, old(writerCache), authed, t) && r.Some? ==> r == Some(InsufficientBalance)
      ensures Inv(cfg, State().sys)
      ensures ledger == old(ledger) + if r.None? then [t] else []
      ensures r.None? ==> t.uuid !in old(writerCache) && t.uuid in writerCache
    {
      ghost var before := State();
      CallAlone(cfg, before, authed, t, loads);
      RefusedIff(cfg, writerCache, authed, t);
      if authed.None? { return Some(Unauthorized); }
      if t.uuid in writerCache { return Some(Duplicate); }
      var invalid := Validate(cfg.local, authed.value, t);
      if invalid.Some? { return invalid; }
      if t.fromRoute == cfg.local {
        var balance := GetAvailableBalance(t.fromAcct, loads);
        if balance < t.amount { return Some(InsufficientBalance); }
      }
      LedgerCache.StepInv(cfg, State().sys, LedgerCache.Append(t));
      ledger := ledger + [t];
      writerCache := writerCache + {t.uuid};
      r := None;
    }
  }

  /** The cached balance, or the one a load finds now, covers the amount. */
  predicate Covers(cfg: Config, s: Sys, t: Txn, loads: bool) {
    if t.fromAcct in s.cache then t.amount <= s.cache[t.fromAcct].balance
    else loads && t.amount <= LoadedBalance(s.ledger, t.fromAcct, cfg.local)
  }

  lemma AvailableIs(cfg: Config, s: Sys, a: Account, loads: bool)
    requires Inv(cfg, s) && s.loading == map[]
    ensures Inv(cfg, Available(cfg, s, a, loads).0)
    ensures
      && loads && Solvent(s.ledger, cfg.local)
      && (a in s.cache ==> s.pos == |s.ledger| && s.cache[a].balanceLen == s.cache[a].loadPos)
      ==> Available(cfg, s, a, loads).1 == Net(s.ledger, a, cfg.local)
  {
    assert s.ledger[..|s.ledger|] == s.ledger && s.ledger[s.pos..s.pos] == [];
    if Solvent(s.ledger, cfg.local) {
      if a !in s.cache {
        SolventHidesNothing(s.ledger, |s.ledger|, a, cfg.local);
      } else {
        assert BalanceOk(cfg, s.ledger, s.pos, s.cache[a], a);
        SolventHidesNothing(s.ledger, s.cache[a].balanceLen, a, cfg.local);
        BalanceIsDrift(cfg, s.ledger, s.pos, s.cache[a], a);
      }
    }
  }
}
