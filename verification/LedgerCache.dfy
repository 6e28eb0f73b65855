/**
 * The account cache in front of the ledger. A load asks the database for the balance, then for the
 * history page, and installs the entry only afterwards; meanwhile the background reader goes on
 * feeding rows to the entries that are installed, from its own position. Every query,
 * installation, eviction, append and delivery is a step of its own.
 */
module LedgerCache {
  import opened Wrappers
  import opened Ledger

  datatype Config = Config(local: Routing, historyLimit: nat)

  /**
   * The last three fields are history: the lengths of the ledger the two queries saw, and the
   * reader's position when the entry was installed.
   */
  datatype Entry = Entry(balance: int, history: seq<Txn>, balanceLen: nat, pageLen: nat, loadPos: nat)

  /** A load in flight: the balance is known, or the history page as well. */
  datatype Load =
    | Asked(balance: int, balanceLen: nat)
    | Paged(balance: int, balanceLen: nat, history: seq<Txn>, pageLen: nat)

  datatype Sys = Sys(ledger: seq<Txn>, pos: nat, cache: map<Account, Entry>, loading: map<Account, Load>)

  datatype Event =
    | Append(t: Txn)
    | Deliver
    | AskBalance(a: Account) // the first request for an absent account begins to load it
    | AskPage(a: Account)
    | Store(a: Account)
    | Abandon(a: Account)    // a query failed
    | Evict(a: Account)

  /** addFirst, then removeLast when the deque is over the limit. */
  function Remember(history: seq<Txn>, t: Txn, limit: nat): seq<Txn> {
    var longer := [t] + history;
    if |longer| > limit then longer[..|longer| - 1] else longer
  }

  function Process(cfg: Config, cache: map<Account, Entry>, a: Account, change: int, t: Txn): map<Account, Entry>
    requires a in cache
  {
    cache[a := cache[a].(balance := cache[a].balance + change,
                         history := Remember(cache[a].history, t, cfg.historyLimit))]
  }

  /** The reader's callback: sender first, then receiver, each only when local and cached. */
  function Callback(cfg: Config, cache: map<Account, Entry>, t: Txn): map<Account, Entry> {
    var c := if t.fromRoute == cfg.local && t.fromAcct in cache
             then Process(cfg, cache, t.fromAcct, -t.amount, t) else cache;
    if t.toRoute == cfg.local && t.toAcct in c then Process(cfg, c, t.toAcct, t.amount, t) else c
  }

  function Page(cfg: Config, ledger: seq<Txn>, a: Account): seq<Txn> {
    Take(Recent(ledger, a, cfg.local), cfg.historyLimit)
  }

  function DoAskBalance(cfg: Config, s: Sys, a: Account): Sys {
    if a in s.cache || a in s.loading then s
    else s.(loading := s.loading[a := Asked(LoadedBalance(s.ledger, a, cfg.local), |s.ledger|)])
  }

  function DoAskPage(cfg: Config, s: Sys, a: Account): Sys {
    if a in s.loading && s.loading[a].Asked? then
      var l := s.loading[a];
      s.(loading := s.loading[a := Paged(l.balance, l.balanceLen, Page(cfg, s.ledger, a), |s.ledger|)])
    else s
  }

  function DoStore(s: Sys, a: Account): Sys {
    if a in s.loading && s.loading[a].Paged? then
      var l := s.loading[a];
      s.(cache := s.cache[a := Entry(l.balance, l.history, l.balanceLen, l.pageLen, s.pos)],
         loading := s.loading - {a})
    else s
  }

  /** A callback finds no entry for an account that is still loading and skips it. */
  function DoDeliver(cfg: Config, s: Sys): Sys {
    if s.pos < |s.ledger| then s.(pos := s.pos + 1, cache := Callback(cfg, s.cache, s.ledger[s.pos])) else s
  }

  function Apply(cfg: Config, s: Sys, e: Event): Sys {
    match e
    case Append(t) => s.(ledger := s.ledger + [t])
    case Deliver => DoDeliver(cfg, s)
    case AskBalance(a) => DoAskBalance(cfg, s, a)
    case AskPage(a) => DoAskPage(cfg, s, a)
    case Store(a) => DoStore(s, a)
    case Abandon(a) => s.(loading := s.loading - {a})
    case Evict(a) => s.(cache := s.cache - {a})
  }

  function Run(cfg: Config, s: Sys, es: seq<Event>): Sys {
    if es == [] then s else Apply(cfg, Run(cfg, s, es[..|es| - 1]), es[|es| - 1])
  }

  lemma {:induction false} RunConcat(cfg: Config, s: Sys, a: seq<Event>, b: seq<Event>)
    ensures Run(cfg, s, a + b) == Run(cfg, Run(cfg, s, a), b)
  {
    if b == [] {
      assert a + b == a;
    } else {
      var n := |b| - 1;
      assert (a + b)[..|a + b| - 1] == a + b[..n];
      RunConcat(cfg, s, a, b[..n]);
    }
  }

  /** A run told state by state. */
  lemma {:induction false} Traced(cfg: Config, states: seq<Sys>, es: seq<Event>)
    requires |states| == |es| + 1
    requires forall i :: 0 <= i < |es| ==> states[i + 1] == Apply(cfg, states[i], es[i])
    ensures Run(cfg, states[0], es) == states[|es|]
    decreases |es|
  {
    if es != [] { Traced(cfg, states[..|es|], es[..|es| - 1]); }
  }

  // ---------- the exact relation of cache and ledger ----------

  predicate Placed(ledger: seq<Txn>, pos: nat, e: Entry) {
    e.balanceLen <= e.pageLen <= |ledger| && e.loadPos <= pos <= |ledger|
  }

  /** How far a cached balance was when installed, and stays, from the net at the reader's position. */
  function Drift(cfg: Config, ledger: seq<Txn>, e: Entry, a: Account): int
    requires e.balanceLen <= |ledger| && e.loadPos <= |ledger|
  {
    LoadedBalance(ledger[..e.balanceLen], a, cfg.local) - Net(ledger[..e.loadPos], a, cfg.local)
  }

  /** Rows delivered since the installation, in front of the rows the page query saw. */
  function Pages(cfg: Config, ledger: seq<Txn>, pos: nat, e: Entry, a: Account): seq<Txn>
    requires Placed(ledger, pos, e)
  {
    Take(Recent(ledger[e.loadPos..pos], a, cfg.local) + Recent(ledger[..e.pageLen], a, cfg.local), cfg.historyLimit)
  }

  ghost predicate BalanceOk(cfg: Config, ledger: seq<Txn>, pos: nat, e: Entry, a: Account) {
    && Placed(ledger, pos, e)
    && e.balance == LoadedBalance(ledger[..e.balanceLen], a, cfg.local) + Net(ledger[e.loadPos..pos], a, cfg.local)
  }

  ghost predicate HistoryOk(cfg: Config, ledger: seq<Txn>, pos: nat, e: Entry, a: Account) {
    Placed(ledger, pos, e) && e.history == Pages(cfg, ledger, pos, e, a)
  }

  ghost predicate LoadOk(cfg: Config, ledger: seq<Txn>, l: Load, a: Account) {
    && l.balanceLen <= |ledger| && l.balance == LoadedBalance(ledger[..l.balanceLen], a, cfg.local)
    && (l.Paged? ==> l.balanceLen <= l.pageLen <= |ledger| && l.history == Page(cfg, ledger[..l.pageLen], a))
  }

  ghost predicate Inv(cfg: Config, s: Sys) {
    && s.pos <= |s.ledger| && s.cache.Keys !! s.loading.Keys
    && (forall a :: a in s.loading ==> LoadOk(cfg, s.ledger, s.loading[a], a))
    && (forall a :: a in s.cache ==> BalanceOk(cfg, s.ledger, s.pos, s.cache[a], a))
  }

  ghost predicate HistoryInv(cfg: Config, s: Sys) {
    && Inv(cfg, s)
    && (forall a :: a in s.cache ==> HistoryOk(cfg, s.ledger, s.pos, s.cache[a], a))
  }

  predicate NoSelfTransfers(l: seq<Txn>) {
    forall i :: 0 <= i < |l| ==> !SelfTransfer(l[i])
  }

  /** What one callback does to one account. */
  lemma CallbackEntry(cfg: Config, cache: map<Account, Entry>, t: Txn, a: Account)
    ensures a in Callback(cfg, cache, t) <==> a in cache
    ensures a in cache ==>
      var e := cache[a]; var e' := Callback(cfg, cache, t)[a];
      && SameLoad(e, e')
      && e'.balance == e.balance + Net([t], a, cfg.local)
      && (!Touches(t, a, cfg.local) ==> e'.history == e.history)
      && (Touches(t, a, cfg.local) && !SelfTransfer(t) ==> e'.history == Remember(e.history, t, cfg.historyLimit))
  {
    NetOne(t, a, cfg.local);
  }

  lemma RememberTakes(s: seq<Txn>, t: Txn, limit: nat)
    ensures Remember(Take(s, limit), t, limit) == Take([t] + s, limit)
  {
  }

  lemma NetNext(l: seq<Txn>, from: nat, pos: nat, a: Account, local: Routing)
    requires from <= pos < |l|
    ensures Net(l[from..pos + 1], a, local) == Net(l[from..pos], a, local) + Net([l[pos]], a, local)
  {
    assert l[from..pos + 1] == l[from..pos] + [l[pos]];
    NetConcat(l[from..pos], [l[pos]], a, local);
  }

  lemma NetBetween(l: seq<Txn>, from: nat, to: nat, a: Account, local: Routing)
    requires from <= to <= |l|
    ensures Net(l[..to], a, local) == Net(l[..from], a, local) + Net(l[from..to], a, local)
  {
    assert l[..to] == l[..from] + l[from..to];
    NetConcat(l[..from], l[from..to], a, local);
  }

  predicate SameLoad(e: Entry, e': Entry) {
    e'.balanceLen == e.balanceLen && e'.pageLen == e.pageLen && e'.loadPos == e.loadPos
  }

  lemma BalanceGrows(cfg: Config, ledger: seq<Txn>, pos: nat, e: Entry, e': Entry, a: Account)
    requires BalanceOk(cfg, ledger, pos, e, a) && pos < |ledger| && SameLoad(e, e')
    requires e'.balance == e.balance + Net([ledger[pos]], a, cfg.local)
    ensures BalanceOk(cfg, ledger, pos + 1, e', a)
  {
    NetNext(ledger, e.loadPos, pos, a, cfg.local);
  }

  lemma DeliverBalance(cfg: Config, s: Sys, a: Account)
    requires Inv(cfg, s) && s.pos < |s.ledger| && a in s.cache
    ensures var c := Callback(cfg, s.cache, s.ledger[s.pos]);
      a in c && BalanceOk(cfg, s.ledger, s.pos + 1, c[a], a)
  {
    var c := Callback(cfg, s.cache, s.ledger[s.pos]);
    assert BalanceOk(cfg, s.ledger, s.pos, s.cache[a], a);
    CallbackEntry(cfg, s.cache, s.ledger[s.pos], a);
    BalanceGrows(cfg, s.ledger, s.pos, s.cache[a], c[a], a);
  }

  lemma PagesGrow(cfg: Config, ledger: seq<Txn>, pos: nat, e: Entry, a: Account)
    requires Placed(ledger, pos, e) && pos < |ledger|
    ensures Pages(cfg, ledger, pos + 1, e, a) ==
      if Touches(ledger[pos], a, cfg.local) then Remember(Pages(cfg, ledger, pos, e, a), ledger[pos], cfg.historyLimit)
      else Pages(cfg, ledger, pos, e, a)
  {
    var t := ledger[pos];
    var since := ledger[e.loadPos..pos];
    var present := Recent(ledger[..e.pageLen], a, cfg.local);
    assert ledger[e.loadPos..pos + 1] == since + [t];
    assert (since + [t])[..|since + [t]| - 1] == since;
    RememberTakes(Recent(since, a, cfg.local) + present, t, cfg.historyLimit);
    assert ([t] + Recent(since, a, cfg.local)) + present == [t] + (Recent(since, a, cfg.local) + present);
  }

  lemma SamePages(cfg: Config, ledger: seq<Txn>, pos: nat, e: Entry, e': Entry, a: Account)
    requires Placed(ledger, pos, e) && SameLoad(e, e')
    ensures Placed(ledger, pos, e') && Pages(cfg, ledger, pos, e', a) == Pages(cfg, ledger, pos, e, a)
  {
  }

  lemma EntryGrows(cfg: Config, ledger: seq<Txn>, pos: nat, e: Entry, e': Entry, a: Account)
    requires HistoryOk(cfg, ledger, pos, e, a) && pos < |ledger|
    requires SameLoad(e, e')
    requires e'.history == if Touches(ledger[pos], a, cfg.local) then Remember(e.history, ledger[pos], cfg.historyLimit) else e.history
    ensures HistoryOk(cfg, ledger, pos + 1, e', a)
  {
    PagesGrow(cfg, ledger, pos, e, a);
    SamePages(cfg, ledger, pos + 1, e, e', a);
  }

  lemma DeliverHistory(cfg: Config, s: Sys, a: Account)
    requires HistoryInv(cfg, s) && s.pos < |s.ledger| && a in s.cache && !SelfTransfer(s.ledger[s.pos])
    ensures var c := Callback(cfg, s.cache, s.ledger[s.pos]);
      a in c && HistoryOk(cfg, s.ledger, s.pos + 1, c[a], a)
  {
    CallbackEntry(cfg, s.cache, s.ledger[s.pos], a);
    EntryGrows(cfg, s.ledger, s.pos, s.cache[a], Callback(cfg, s.cache, s.ledger[s.pos])[a], a);
  }

  lemma AppendKeeps(cfg: Config, s: Sys, t: Txn, a: Account)
    requires a in s.cache && Placed(s.ledger, s.pos, s.cache[a])
    ensures var l := s.ledger + [t]; var e := s.cache[a];
      && Placed(l, s.pos, e)
      && (BalanceOk(cfg, s.ledger, s.pos, e, a) ==> BalanceOk(cfg, l, s.pos, e, a))
      && Pages(cfg, l, s.pos, e, a) == Pages(cfg, s.ledger, s.pos, e, a)
  {
    var l := s.ledger + [t];
    var e := s.cache[a];
    assert l[..e.balanceLen] == s.ledger[..e.balanceLen];
    assert l[..e.pageLen] == s.ledger[..e.pageLen];
    assert l[e.loadPos..s.pos] == s.ledger[e.loadPos..s.pos];
  }

  lemma AppendKeepsLoad(cfg: Config, ledger: seq<Txn>, t: Txn, l: Load, a: Account)
    requires LoadOk(cfg, ledger, l, a)
    ensures LoadOk(cfg, ledger + [t], l, a)
  {
    assert (ledger + [t])[..l.balanceLen] == ledger[..l.balanceLen];
    if l.Paged? { assert (ledger + [t])[..l.pageLen] == ledger[..l.pageLen]; }
  }

  lemma StoredOk(cfg: Config, s: Sys, a: Account)
    requires Inv(cfg, s) && a in s.loading && s.loading[a].Paged?
    ensures var e := DoStore(s, a).cache[a];
      && BalanceOk(cfg, s.ledger, s.pos, e, a) && HistoryOk(cfg, s.ledger, s.pos, e, a)
  {
    assert LoadOk(cfg, s.ledger, s.loading[a], a);
    assert s.ledger[s.pos..s.pos] == [];
    var present := Recent(s.ledger[..s.loading[a].pageLen], a, cfg.local);
    assert [] + present == present;
  }

  lemma LoadsStep(cfg: Config, s: Sys, e: Event, a: Account)
    requires Inv(cfg, s) && a in Apply(cfg, s, e).loading
    ensures LoadOk(cfg, Apply(cfg, s, e).ledger, Apply(cfg, s, e).loading[a], a)
  {
    assert s.ledger[..|s.ledger|] == s.ledger;
    if a in s.loading {
      assert LoadOk(cfg, s.ledger, s.loading[a], a);
      if e.Append? { AppendKeepsLoad(cfg, s.ledger, e.t, s.loading[a], a); }
    }
  }

  lemma CallbackKeys(cfg: Config, cache: map<Account, Entry>, t: Txn)
    ensures Callback(cfg, cache, t).Keys == cache.Keys
  {
  }

  lemma StepInv(cfg: Config, s: Sys, e: Event)
    requires Inv(cfg, s)
    ensures Inv(cfg, Apply(cfg, s, e))
  {
    var t := Apply(cfg, s, e);
    if s.pos < |s.ledger| { CallbackKeys(cfg, s.cache, s.ledger[s.pos]); }
    forall a | a in t.loading
      ensures LoadOk(cfg, t.ledger, t.loading[a], a)
    {
      LoadsStep(cfg, s, e, a);
    }
    forall a | a in t.cache
      ensures BalanceOk(cfg, t.ledger, t.pos, t.cache[a], a)
    {
      BalanceStep(cfg, s, e, a);
    }
  }

  /** Only a delivery and the end of its own load change what an account's entry is. */
  lemma SameEntry(cfg: Config, s: Sys, e: Event, a: Account)
    requires a in Apply(cfg, s, e).cache
    requires e.Deliver? ==> s.pos >= |s.ledger|
    requires e == Store(a) ==> !(a in s.loading && s.loading[a].Paged?)
    ensures var t := Apply(cfg, s, e);
      a in s.cache && t.cache[a] == s.cache[a] && t.pos == s.pos && (!e.Append? ==> t.ledger == s.ledger)
  {
  }

  /** An entry after a step is the old one, up to deliveries, or the load just installed. */
  ghost predicate EntryFrom(s: Sys, f: Entry, a: Account) {
    || (a in s.cache && SameLoad(s.cache[a], f))
    || (a in s.loading && f.balanceLen == s.loading[a].balanceLen && f.loadPos == s.pos)
  }

  /** A load in flight after a step is an old one, or one whose balance query has just been answered. */
  ghost predicate LoadFrom(s: Sys, l: Load, a: Account) {
    (a in s.loading && l.balanceLen == s.loading[a].balanceLen) || l.balanceLen == |s.ledger|
  }

  lemma LoadsFrom(cfg: Config, s: Sys, e: Event, a: Account)
    requires a in Apply(cfg, s, e).loading
    ensures LoadFrom(s, Apply(cfg, s, e).loading[a], a)
  {
  }

  lemma EntriesFrom(cfg: Config, s: Sys, e: Event, a: Account)
    requires a in Apply(cfg, s, e).cache
    ensures EntryFrom(s, Apply(cfg, s, e).cache[a], a)
  {
    if e.Deliver? && s.pos < |s.ledger| {
      CallbackEntry(cfg, s.cache, s.ledger[s.pos], a);
    } else if e == Store(a) && a in s.loading && s.loading[a].Paged? {
      assert Apply(cfg, s, e) == DoStore(s, a);
    } else {
      SameEntry(cfg, s, e, a);
    }
  }

  lemma BalanceStep(cfg: Config, s: Sys, e: Event, a: Account)
    requires Inv(cfg, s) && a in Apply(cfg, s, e).cache
    ensures var t := Apply(cfg, s, e); BalanceOk(cfg, t.ledger, t.pos, t.cache[a], a)
  {
    if e.Deliver? && s.pos < |s.ledger| {
      DeliveredBalance(cfg, s, a);
    } else if e == Store(a) && a in s.loading && s.loading[a].Paged? {
      StoredOk(cfg, s, a);
      assert Apply(cfg, s, e) == DoStore(s, a);
    } else {
      SameEntry(cfg, s, e, a);
      assert BalanceOk(cfg, s.ledger, s.pos, s.cache[a], a);
      if e.Append? { AppendKeeps(cfg, s, e.t, a); }
    }
  }

  lemma DeliveredBalance(cfg: Config, s: Sys, a: Account)
    requires Inv(cfg, s) && s.pos < |s.ledger| && a in DoDeliver(cfg, s).cache
    ensures var t := DoDeliver(cfg, s); BalanceOk(cfg, t.ledger, t.pos, t.cache[a], a)
  {
    CallbackKeys(cfg, s.cache, s.ledger[s.pos]);
    DeliverBalance(cfg, s, a);
  }

  lemma StepHistory(cfg: Config, s: Sys, e: Event)
    requires HistoryInv(cfg, s) && NoSelfTransfers(s.ledger)
    ensures HistoryInv(cfg, Apply(cfg, s, e))
  {
    var t := Apply(cfg, s, e);
    StepInv(cfg, s, e);
    forall a | a in t.cache
      ensures HistoryOk(cfg, t.ledger, t.pos, t.cache[a], a)
    {
      EntryStep(cfg, s, e, a);
    }
  }

  lemma EntryStep(cfg: Config, s: Sys, e: Event, a: Account)
    requires HistoryInv(cfg, s) && NoSelfTransfers(s.ledger) && a in Apply(cfg, s, e).cache
    ensures var t := Apply(cfg, s, e); HistoryOk(cfg, t.ledger, t.pos, t.cache[a], a)
  {
    if e.Deliver? && s.pos < |s.ledger| {
      CallbackKeys(cfg, s.cache, s.ledger[s.pos]);
      DeliverHistory(cfg, s, a);
    } else if e == Store(a) && a in s.loading && s.loading[a].Paged? {
      StoredOk(cfg, s, a);
    } else {
      SameEntry(cfg, s, e, a);
      if e.Append? { AppendKeeps(cfg, s, e.t, a); }
    }
  }

  /** The service starts with an empty cache and the reader at the end of some ledger prefix. */
  function Start(ledger: seq<Txn>, pos: nat): Sys {
    Sys(ledger, pos, map[], map[])
  }

  lemma {:induction false} AlwaysInv(cfg: Config, s: Sys, es: seq<Event>)
    requires Inv(cfg, s)
    ensures Inv(cfg, Run(cfg, s, es))
  {
    if es != [] {
      AlwaysInv(cfg, s, es[..|es| - 1]);
      StepInv(cfg, Run(cfg, s, es[..|es| - 1]), es[|es| - 1]);
    }
  }

  /** The drift in the two orders of query and position: rows counted twice, or rows missed. */
  lemma DriftIs(cfg: Config, ledger: seq<Txn>, e: Entry, a: Account)
    requires e.balanceLen <= |ledger| && e.loadPos <= |ledger|
    ensures var hidden := Hidden(ledger[..e.balanceLen], a, cfg.local);
      && (e.loadPos <= e.balanceLen ==>
            Drift(cfg, ledger, e, a) == Net(ledger[e.loadPos..e.balanceLen], a, cfg.local) + hidden)
      && (e.balanceLen <= e.loadPos ==>
            Drift(cfg, ledger, e, a) == hidden - Net(ledger[e.balanceLen..e.loadPos], a, cfg.local))
  {
    LoadedIsNetPlusHidden(ledger[..e.balanceLen], a, cfg.local);
    if e.loadPos <= e.balanceLen { NetBetween(ledger, e.loadPos, e.balanceLen, a, cfg.local); }
    if e.balanceLen <= e.loadPos { NetBetween(ledger, e.balanceLen, e.loadPos, a, cfg.local); }
  }

  lemma BalanceIsDrift(cfg: Config, ledger: seq<Txn>, pos: nat, e: Entry, a: Account)
    requires BalanceOk(cfg, ledger, pos, e, a)
    ensures e.balance == Net(ledger[..pos], a, cfg.local) + Drift(cfg, ledger, e, a)
  {
    NetBetween(ledger, e.loadPos, pos, a, cfg.local);
  }

  /**
   * Over every run a cached balance is what its query answered plus the net delivered since it was
   * installed. It is off the account's net at the reader's position by the net of the rows the
   * query saw before they were delivered, or minus the net of the rows delivered before it was
   * installed and after the query, plus the debits a NULL sum hid; and it is exact, now and until it
   * is evicted, if and only if it was exact when installed.
   */
  lemma ExactDrift(cfg: Config, ledger: seq<Txn>, pos: nat, es: seq<Event>, a: Account)
    requires pos <= |ledger| && a in Run(cfg, Start(ledger, pos), es).cache
    ensures var s := Run(cfg, Start(ledger, pos), es); Placed(s.ledger, s.pos, s.cache[a])
    ensures var s := Run(cfg, Start(ledger, pos), es); var e := s.cache[a];
      var hidden := Hidden(s.ledger[..e.balanceLen], a, cfg.local);
      && e.balance == LoadedBalance(s.ledger[..e.balanceLen], a, cfg.local) + Net(s.ledger[e.loadPos..s.pos], a, cfg.local)
      && (e.loadPos <= e.balanceLen ==>
            e.balance == Net(s.ledger[..s.pos], a, cfg.local) + Net(s.ledger[e.loadPos..e.balanceLen], a, cfg.local) + hidden)
      && (e.balanceLen <= e.loadPos ==>
            e.balance == Net(s.ledger[..s.pos], a, cfg.local) - Net(s.ledger[e.balanceLen..e.loadPos], a, cfg.local) + hidden)
      && (e.balance == Net(s.ledger[..s.pos], a, cfg.local) <==>
            LoadedBalance(s.ledger[..e.balanceLen], a, cfg.local) == Net(s.ledger[..e.loadPos], a, cfg.local))
  {
    AlwaysInv(cfg, Start(ledger, pos), es);
    var s := Run(cfg, Start(ledger, pos), es);
    var e := s.cache[a];
    assert BalanceOk(cfg, s.ledger, s.pos, e, a);
    BalanceIsDrift(cfg, s.ledger, s.pos, e, a);
    DriftIs(cfg, s.ledger, e, a);
  }

  lemma {:induction false} LedgerGrows(cfg: Config, s: Sys, es: seq<Event>)
    ensures s.ledger <= Run(cfg, s, es).ledger
  {
    if es != [] { LedgerGrows(cfg, s, es[..|es| - 1]); }
  }

  lemma {:induction false} AlwaysHistory(cfg: Config, s: Sys, es: seq<Event>)
    requires HistoryInv(cfg, s) && NoSelfTransfers(Run(cfg, s, es).ledger)
    ensures HistoryInv(cfg, Run(cfg, s, es))
  {
    if es != [] {
      var m := Run(cfg, s, es[..|es| - 1]);
      LedgerGrows(cfg, m, [es[|es| - 1]]);
      assert [es[|es| - 1]][..0] == [];
      assert Run(cfg, m, [es[|es| - 1]]) == Apply(cfg, m, es[|es| - 1]);
      assert forall i :: 0 <= i < |m.ledger| ==> m.ledger[i] == Run(cfg, s, es).ledger[i];
      AlwaysHistory(cfg, s, es[..|es| - 1]);
      StepHistory(cfg, m, es[|es| - 1]);
    }
  }

  /** Between the two lengths no row touches the account. */
  ghost predicate Untouched(l: seq<Txn>, p: nat, q: nat, a: Account, local: Routing)
    requires p <= |l| && q <= |l|
  {
    forall i :: (p <= i < q || q <= i < p) ==> !Touches(l[i], a, local)
  }

  /**
   * With validated rows a cached history is always the rows delivered since it was installed in
   * front of the page its query saw, cut at the limit. That is the one page the repository itself
   * would return at the reader's position if and only if no row of the account lies between the
   * query and the installation, or deliveries since then have filled the page.
   */
  lemma HistoryAgrees(cfg: Config, ledger: seq<Txn>, pos: nat, es: seq<Event>, a: Account, page: seq<Txn>)
    requires pos <= |ledger| && a in Run(cfg, Start(ledger, pos), es).cache
    requires NoSelfTransfers(Run(cfg, Start(ledger, pos), es).ledger)
    ensures var s := Run(cfg, Start(ledger, pos), es); var e := s.cache[a];
      && Placed(s.ledger, s.pos, e) && e.history == Pages(cfg, s.ledger, s.pos, e, a)
      && (Timed(s.ledger) && IsPage(page, s.ledger[..s.pos], a, cfg.local, cfg.historyLimit) ==>
            (e.history == page <==>
              || Untouched(s.ledger, e.pageLen, e.loadPos, a, cfg.local)
              || |Recent(s.ledger[e.loadPos..s.pos], a, cfg.local)| >= cfg.historyLimit))
  {
    AlwaysHistory(cfg, Start(ledger, pos), es);
    var s := Run(cfg, Start(ledger, pos), es);
    var e := s.cache[a];
    assert HistoryOk(cfg, s.ledger, s.pos, e, a);
    if Timed(s.ledger) && IsPage(page, s.ledger[..s.pos], a, cfg.local, cfg.historyLimit) {
      PageIsNewest(page, s.ledger[..s.pos], a, cfg.local, cfg.historyLimit);
      PagesAgreeIff(cfg, s.ledger, s.pos, e, a);
    }
  }

  lemma PagesAgreeIff(cfg: Config, ledger: seq<Txn>, pos: nat, e: Entry, a: Account)
    requires Placed(ledger, pos, e) && Timed(ledger)
    ensures Pages(cfg, ledger, pos, e, a) == Page(cfg, ledger[..pos], a)
       <==> || Untouched(ledger, e.pageLen, e.loadPos, a, cfg.local)
            || |Recent(ledger[e.loadPos..pos], a, cfg.local)| >= cfg.historyLimit
  {
    var since := Recent(ledger[e.loadPos..pos], a, cfg.local);
    assert ledger[..pos] == ledger[..e.loadPos] + ledger[e.loadPos..pos];
    RecentConcat(ledger[..e.loadPos], ledger[e.loadPos..pos], a, cfg.local);
    TakeAfter(since, Recent(ledger[..e.pageLen], a, cfg.local), Recent(ledger[..e.loadPos], a, cfg.local), cfg.historyLimit);
    if |since| < cfg.historyLimit {
      NewestDiffer(ledger, e.pageLen, e.loadPos, a, cfg.local, cfg.historyLimit - |since|);
    }
  }

  /** Pages that begin alike agree when what is left of them does. */
  lemma TakeAfter(x: seq<Txn>, y: seq<Txn>, z: seq<Txn>, limit: nat)
    ensures Take(x + y, limit) == Take(x + z, limit)
       <==> |x| >= limit || Take(y, limit - |x|) == Take(z, limit - |x|)
  {
    if |x| >= limit {
      assert Take(x + y, limit) == x[..limit] == Take(x + z, limit);
    } else {
      TakeRest(x, y, limit);
      TakeRest(x, z, limit);
    }
  }

  lemma TakeRest(x: seq<Txn>, y: seq<Txn>, limit: nat)
    requires |x| < limit
    ensures Take(x + y, limit) == x + Take(y, limit - |x|)
    ensures Take(x + y, limit)[..|x|] == x && Take(x + y, limit)[|x|..] == Take(y, limit - |x|)
  {
    assert Take(x + y, limit) == x + Take(y, limit - |x|);
  }

  /** The newest rows at two lengths are the same exactly when no row of the account lies between. */
  lemma NewestDiffer(l: seq<Txn>, p: nat, q: nat, a: Account, local: Routing, n: nat)
    requires Timed(l) && p <= |l| && q <= |l| && n > 0
    ensures Take(Recent(l[..p], a, local), n) == Take(Recent(l[..q], a, local), n) <==> Untouched(l, p, q, a, local)
  {
    if p <= q { NewestGrow(l, p, q, a, local, n); } else { NewestGrow(l, q, p, a, local, n); }
  }

  lemma NewestGrow(l: seq<Txn>, p: nat, q: nat, a: Account, local: Routing, n: nat)
    requires Timed(l) && p <= q <= |l| && n > 0
    ensures Take(Recent(l[..p], a, local), n) == Take(Recent(l[..q], a, local), n) <==> Untouched(l, p, q, a, local)
  {
    var between := Recent(l[p..q], a, local);
    var earlier := Recent(l[..p], a, local);
    assert l[..q] == l[..p] + l[p..q];
    RecentConcat(l[..p], l[p..q], a, local);
    UntouchedIff(l, p, q, a, local);
    if between == [] {
      assert [] + earlier == earlier;
    } else {
      NewFirst(l, p, q, a, local);
      LeadsDiffer(between, earlier, n);
    }
  }

  lemma LeadsDiffer(between: seq<Txn>, earlier: seq<Txn>, n: nat)
    requires n > 0 && between != [] && between[0] !in earlier
    ensures Take(earlier, n) != Take(between + earlier, n)
  {
    assert Take(between + earlier, n)[0] == between[0];
    if earlier != [] { assert Take(earlier, n)[0] == earlier[0] && earlier[0] in earlier; }
  }

  lemma SliceTimed(l: seq<Txn>, p: nat, q: nat)
    requires Timed(l) && p <= q <= |l|
    ensures Timed(l[p..q])
  {
  }

  lemma UntouchedIff(l: seq<Txn>, p: nat, q: nat, a: Account, local: Routing)
    requires Timed(l) && p <= q <= |l|
    ensures Recent(l[p..q], a, local) == [] <==> Untouched(l, p, q, a, local)
  {
    var r := Recent(l[p..q], a, local);
    SliceTimed(l, p, q);
    RecentSound(l[p..q], a, local);
    if r == [] {
      forall i | p <= i < q
        ensures !Touches(l[i], a, local)
      {
        assert l[p..q][i - p] == l[i] && l[i] in l[p..q];
      }
    } else {
      assert r[0] in r;
      var i :| 0 <= i < |l[p..q]| && l[p..q][i] == r[0];
      assert l[p + i] == r[0];
    }
  }

  lemma NewFirst(l: seq<Txn>, p: nat, q: nat, a: Account, local: Routing)
    requires Timed(l) && p <= q <= |l| && Recent(l[p..q], a, local) != []
    ensures Recent(l[p..q], a, local)[0] !in Recent(l[..p], a, local)
  {
    var r := Recent(l[p..q], a, local);
    SliceTimed(l, p, q);
    SliceTimed(l, 0, p);
    assert l[0..p] == l[..p];
    RecentSound(l[p..q], a, local);
    RecentSound(l[..p], a, local);
    assert r[0] in r;
    NewestIsLater(l, p, q, r[0]);
  }

  lemma NewestIsLater(l: seq<Txn>, p: nat, q: nat, t: Txn)
    requires Timed(l) && p <= q <= |l| && t in l[p..q]
    ensures t !in l[..p]
  {
    var i :| 0 <= i < |l[p..q]| && l[p..q][i] == t;
    assert l[p + i] == t;
  }

  // ---------- a load the reader overtakes ----------

  /** An entry keeps what its queries saw, and its drift, for as long as it is not evicted. */
  lemma {:induction false} EntryStays(cfg: Config, s: Sys, es: seq<Event>, a: Account)
    requires Inv(cfg, s) && a in s.cache && Evict(a) !in es
    ensures var t := Run(cfg, s, es);
      && Inv(cfg, t) && a in t.cache && SameLoad(s.cache[a], t.cache[a]) && s.ledger <= t.ledger
  {
    if es != [] {
      var m := Run(cfg, s, es[..|es| - 1]);
      EntryStays(cfg, s, es[..|es| - 1], a);
      StepInv(cfg, m, es[|es| - 1]);
      StaysStep(cfg, m, es[|es| - 1], a);
    }
  }

  lemma StaysStep(cfg: Config, s: Sys, e: Event, a: Account)
    requires a in s.cache && a !in s.loading && e != Evict(a)
    ensures var t := Apply(cfg, s, e); a in t.cache && SameLoad(s.cache[a], t.cache[a]) && s.ledger <= t.ledger
  {
    if e.Deliver? && s.pos < |s.ledger| {
      CallbackEntry(cfg, s.cache, s.ledger[s.pos], a);
    }
  }

  /** Both queries are answered, a credit arrives and is delivered, and only then the entry is installed. */
  function OvertakenLoad(a: Account, t: Txn): seq<Event> {
    [AskBalance(a), AskPage(a), Append(t), Deliver, Store(a)]
  }

  lemma OvertakenRun(cfg: Config, a: Account, t: Txn)
    requires IsCredit(t, a, cfg.local) && !IsDebit(t, a, cfg.local)
    ensures Run(cfg, Start([], 0), OvertakenLoad(a, t)) == Sys([t], 1, map[a := Entry(0, [], 0, 0, 1)], map[])
  {
    var s0 := Start([], 0);
    var s1 := s0.(loading := map[a := Asked(0, 0)]);
    var s2 := s0.(loading := map[a := Paged(0, 0, [], 0)]);
    var s3 := s2.(ledger := [t]);
    var s4 := s3.(pos := 1);
    var s5 := Sys([t], 1, map[a := Entry(0, [], 0, 0, 1)], map[]);
    assert Apply(cfg, s4, Store(a)) == s5;
    Traced(cfg, [s0, s1, s2, s3, s4, s5], OvertakenLoad(a, t));
  }

  /**
   * The plain claim fails: asked and installed with the reader caught up each time, the entry misses
   * the credit, and whatever follows the balance stays short of it until the entry is evicted.
   */
  lemma OvertakenLoadMisses(cfg: Config, a: Account, t: Txn, es: seq<Event>)
    requires IsCredit(t, a, cfg.local) && !IsDebit(t, a, cfg.local) && Evict(a) !in es
    ensures var s := Run(cfg, Start([], 0), OvertakenLoad(a, t));
      && s.pos == |s.ledger| == 1 && a in s.cache
      && s.cache[a].balance == 0 && s.cache[a].history == [] && Net(s.ledger, a, cfg.local) == t.amount
    ensures var u := Run(cfg, Start([], 0), OvertakenLoad(a, t) + es);
      && u.pos <= |u.ledger| && a in u.cache
      && u.cache[a].balance == Net(u.ledger[..u.pos], a, cfg.local) - t.amount
  {
    OvertakenRun(cfg, a, t);
    var s := Run(cfg, Start([], 0), OvertakenLoad(a, t));
    NetOne(t, a, cfg.local);
    RunConcat(cfg, Start([], 0), OvertakenLoad(a, t), es);
    AlwaysInv(cfg, Start([], 0), OvertakenLoad(a, t));
    EntryStays(cfg, s, es, a);
    var u := Run(cfg, s, es);
    assert BalanceOk(cfg, u.ledger, u.pos, u.cache[a], a);
    BalanceIsDrift(cfg, u.ledger, u.pos, u.cache[a], a);
    assert u.ledger[..0] == [] && u.ledger[..1] == [t];
  }

  /** Why the validator must refuse self transfers: the callback would record the row twice. */
  lemma SelfTransferTwice(cfg: Config, cache: map<Account, Entry>, t: Txn)
    requires SelfTransfer(t) && t.fromRoute == cfg.local && t.fromAcct in cache
    requires cfg.historyLimit >= |cache[t.fromAcct].history| + 2
    ensures var e := Callback(cfg, cache, t)[t.fromAcct];
      e.history == [t, t] + cache[t.fromAcct].history && e.balance == cache[t.fromAcct].balance
  {
  }

  // ---------- the split services ----------

  datatype BalanceLoad = BalanceLoad(balance: int, paged: bool)

  datatype BalanceSys = BalanceSys(
    ledger: seq<Txn>, pos: nat, cache: map<Account, int>, loading: map<Account, BalanceLoad>)

  function BalanceCallback(cfg: Config, cache: map<Account, int>, t: Txn): map<Account, int> {
    var c := if t.fromRoute == cfg.local && t.fromAcct in cache
             then cache[t.fromAcct := cache[t.fromAcct] - t.amount] else cache;
    if t.toRoute == cfg.local && t.toAcct in c then c[t.toAcct := c[t.toAcct] + t.amount] else c
  }

  /** The balance service's loads ask one query; the schedule's second one only passes time. */
  function BalanceApply(cfg: Config, s: BalanceSys, e: Event): BalanceSys {
    match e
    case Append(t) => s.(ledger := s.ledger + [t])
    case Deliver =>
      if s.pos < |s.ledger| then s.(pos := s.pos + 1, cache := BalanceCallback(cfg, s.cache, s.ledger[s.pos])) else s
    case AskBalance(a) =>
      if a in s.cache || a in s.loading then s
      else s.(loading := s.loading[a := BalanceLoad(LoadedBalance(s.ledger, a, cfg.local), false)])
    case AskPage(a) =>
      if a in s.loading then s.(loading := s.loading[a := s.loading[a].(paged := true)]) else s
    case Store(a) =>
      if a in s.loading && s.loading[a].paged
      then s.(cache := s.cache[a := s.loading[a].balance], loading := s.loading - {a}) else s
    case Abandon(a) => s.(loading := s.loading - {a})
    case Evict(a) => s.(cache := s.cache - {a})
  }

  function BalanceRun(cfg: Config, s: BalanceSys, es: seq<Event>): BalanceSys {
    if es == [] then s else BalanceApply(cfg, BalanceRun(cfg, s, es[..|es| - 1]), es[|es| - 1])
  }

  /** A load of the history service has begun, and its page is there once its query has run. */
  datatype HistorySys = HistorySys(
    ledger: seq<Txn>, pos: nat, cache: map<Account, seq<Txn>>, loading: map<Account, Option<seq<Txn>>>)

  function HistoryCallback(cfg: Config, cache: map<Account, seq<Txn>>, t: Txn): map<Account, seq<Txn>> {
    var c := if t.fromRoute == cfg.local && t.fromAcct in cache
             then cache[t.fromAcct := Remember(cache[t.fromAcct], t, cfg.historyLimit)] else cache;
    if t.toRoute == cfg.local && t.toAcct in c
    then c[t.toAcct := Remember(c[t.toAcct], t, cfg.historyLimit)] else c
  }

  function HistoryApply(cfg: Config, s: HistorySys, e: Event): HistorySys {
    match e
    case Append(t) => s.(ledger := s.ledger + [t])
    case Deliver =>
      if s.pos < |s.ledger| then s.(pos := s.pos + 1, cache := HistoryCallback(cfg, s.cache, s.ledger[s.pos])) else s
    case AskBalance(a) =>
      if a in s.cache || a in s.loading then s else s.(loading := s.loading[a := None])
    case AskPage(a) =>
      if a in s.loading && s.loading[a].None?
      then s.(loading := s.loading[a := Some(Page(cfg, s.ledger, a))]) else s
    case Store(a) =>
      if a in s.loading && s.loading[a].Some?
      then s.(cache := s.cache[a := s.loading[a].value], loading := s.loading - {a}) else s
    case Abandon(a) => s.(loading := s.loading - {a})
    case Evict(a) => s.(cache := s.cache - {a})
  }

  function HistoryRun(cfg: Config, s: HistorySys, es: seq<Event>): HistorySys {
    if es == [] then s else HistoryApply(cfg, HistoryRun(cfg, s, es[..|es| - 1]), es[|es| - 1])
  }

  function ToBalances(s: Sys): BalanceSys {
    BalanceSys(s.ledger, s.pos, map a | a in s.cache :: s.cache[a].balance,
               map a | a in s.loading :: BalanceLoad(s.loading[a].balance, s.loading[a].Paged?))
  }

  function ToHistories(s: Sys): HistorySys {
    HistorySys(s.ledger, s.pos, map a | a in s.cache :: s.cache[a].history,
               map a | a in s.loading :: if s.loading[a].Paged? then Some(s.loading[a].history) else None)
  }

  lemma CallbackBalances(cfg: Config, s: Sys, t: Txn)
    ensures ToBalances(s.(cache := Callback(cfg, s.cache, t))).cache == BalanceCallback(cfg, ToBalances(s).cache, t)
  {
  }

  lemma CallbackHistories(cfg: Config, s: Sys, t: Txn)
    ensures ToHistories(s.(cache := Callback(cfg, s.cache, t))).cache == HistoryCallback(cfg, ToHistories(s).cache, t)
  {
  }

  lemma CallbackProjects(cfg: Config, s: Sys, t: Txn)
    ensures ToBalances(s.(cache := Callback(cfg, s.cache, t))).cache == BalanceCallback(cfg, ToBalances(s).cache, t)
    ensures ToHistories(s.(cache := Callback(cfg, s.cache, t))).cache == HistoryCallback(cfg, ToHistories(s).cache, t)
  {
    CallbackBalances(cfg, s, t);
    CallbackHistories(cfg, s, t);
  }

  lemma BalanceProjects(cfg: Config, s: Sys, e: Event)
    ensures ToBalances(Apply(cfg, s, e)) == BalanceApply(cfg, ToBalances(s), e)
  {
    if e.Deliver? && s.pos < |s.ledger| { CallbackProjects(cfg, s, s.ledger[s.pos]); }
  }

  lemma HistoryProjects(cfg: Config, s: Sys, e: Event)
    ensures ToHistories(Apply(cfg, s, e)) == HistoryApply(cfg, ToHistories(s), e)
  {
    if e.Deliver? && s.pos < |s.ledger| { CallbackProjects(cfg, s, s.ledger[s.pos]); }
  }

  /** Step for step, the monolith's combined cache is the two split caches side by side. */
  lemma {:induction false} MonolithRefinesServices(cfg: Config, s: Sys, es: seq<Event>)
    ensures ToBalances(Run(cfg, s, es)) == BalanceRun(cfg, ToBalances(s), es)
    ensures ToHistories(Run(cfg, s, es)) == HistoryRun(cfg, ToHistories(s), es)
  {
    if es != [] {
      var m := Run(cfg, s, es[..|es| - 1]);
      MonolithRefinesServices(cfg, s, es[..|es| - 1]);
      BalanceProjects(cfg, m, es[|es| - 1]);
      HistoryProjects(cfg, m, es[|es| - 1]);
    }
  }
}
