/**
 * The background reader: it polls the database for the newest id and hands every newer row to
 * the callback in id order. Each database query sees some ledger or fails.
 */
module LedgerReader {
  import opened Wrappers
  import opened Ledger
  import LedgerCache

  const STARTING_ID := -1

  /** `delivered` is the log of callbacks. */
  datatype Reader = Reader(position: int, alive: bool, delivered: seq<Txn>)

  /** What one poll sees: the ledger at the MAX query and, if it gets there, at the row query. */
  datatype Poll = Poll(head: Option<seq<Txn>>, rows: Option<seq<Txn>>)

  ghost predicate IdOrdered(l: seq<Txn>) {
    && (forall i :: 0 <= i < |l| ==> l[i].id > STARTING_ID)
    && (forall i, k :: 0 <= i < k < |l| ==> l[i].id < l[k].id)
  }

  function LatestId(l: seq<Txn>): int {
    if l == [] then STARTING_ID else l[|l| - 1].id
  }

  /** findLatest: the rows with a larger id, in id order. */
  function After(l: seq<Txn>, id: int): (r: seq<Txn>)
    ensures |r| <= |l| && forall t :: t in r ==> t in l && t.id > id
  {
    if l == [] then []
    else if l[|l| - 1].id > id then After(l[..|l| - 1], id) + [l[|l| - 1]] else After(l[..|l| - 1], id)
  }

  function Begin(head: Option<seq<Txn>>): Reader {
    Reader(match head case None => STARTING_ID case Some(l) => LatestId(l), true, [])
  }

  function Step(r: Reader, p: Poll): Reader {
    if !r.alive then r
    else
      var remote := match p.head case None => r.position case Some(l) => LatestId(l);
      if remote > r.position then
        match p.rows
        case None => r.(alive := false)
        case Some(l) =>
          var news := After(l, r.position);
          r.(position := if news == [] then r.position else news[|news| - 1].id, delivered := r.delivered + news)
      else r.(alive := remote == r.position)
  }

  function Run(r: Reader, ps: seq<Poll>): Reader {
    if ps == [] then r else Step(Run(r, ps[..|ps| - 1]), ps[|ps| - 1])
  }

  // ---------- any database behaviour ----------

  lemma StepMonotone(r: Reader, p: Poll)
    ensures var t := Step(r, p);
      && r.position <= t.position && r.delivered <= t.delivered
      && (!r.alive ==> t == r)
      && (r.alive && p.head.Some? && LatestId(p.head.value) < r.position ==> t == r.(alive := false))
      && (r.alive && p.head.None? ==> t == r)
      && (r.alive && p.head.Some? && LatestId(p.head.value) > r.position && p.rows.None? ==> t == r.(alive := false))
  {
    if r.alive && p.rows.Some? {
      var news := After(p.rows.value, r.position);
      if news != [] { assert news[|news| - 1] in news; }
    }
  }

  /**
   * The position never falls and callbacks are never taken back. Once a poll sees the newest id
   * below the position, no later poll runs another callback, whatever the database does.
   */
  lemma {:induction false} NeverBack(r: Reader, ps: seq<Poll>, qs: seq<Poll>)
    ensures var a := Run(r, ps); var b := Run(r, ps + qs);
      && a.position <= b.position && a.delivered <= b.delivered
      && (!a.alive ==> b == a)
      && (qs != [] && a.alive && qs[0].head.Some? && LatestId(qs[0].head.value) < a.position ==>
            b == a.(alive := false))
    decreases |qs|
  {
    if qs == [] {
      assert ps + qs == ps;
    } else {
      var init := qs[..|qs| - 1];
      assert (ps + qs)[..|ps + qs| - 1] == ps + init;
      NeverBack(r, ps, init);
      StepMonotone(Run(r, ps + init), qs[|qs| - 1]);
      if init == [] { assert ps + init == ps; }
    }
  }

  // ---------- an append-only ledger ----------

  ghost predicate Sees(p: Poll, l: seq<Txn>) {
    (p.head.Some? ==> p.head.value <= l) && (p.rows.Some? ==> p.rows.value <= l)
  }

  lemma {:induction false} AfterLast(l: seq<Txn>, id: int)
    requires IdOrdered(l)
    ensures LatestId(l) <= id ==> After(l, id) == []
    ensures l != [] && l[|l| - 1].id > id ==> After(l, id) != [] && After(l, id)[|After(l, id)| - 1] == l[|l| - 1]
  {
    if l != [] {
      assert forall i :: 0 <= i < |l| - 1 ==> l[i].id < l[|l| - 1].id;
      AfterLast(l[..|l| - 1], id);
    }
  }

  /** Rows after `from` up to `to` are one delivery after another. */
  function Between(l: seq<Txn>, from: int, to: int): seq<Txn> {
    if l == [] then []
    else if from < l[|l| - 1].id <= to then Between(l[..|l| - 1], from, to) + [l[|l| - 1]]
    else Between(l[..|l| - 1], from, to)
  }

  lemma {:induction false} BetweenSteps(l: seq<Txn>, from: int, mid: int, to: int)
    requires IdOrdered(l) && from <= mid <= to
    ensures Between(l, from, to) == Between(l, from, mid) + Between(l, mid, to)
  {
    if l != [] {
      BetweenSteps(l[..|l| - 1], from, mid, to);
      if l[|l| - 1].id <= mid {
        BetweenNone(l[..|l| - 1], mid, to);
      }
    }
  }

  lemma {:induction false} BetweenNone(l: seq<Txn>, from: int, to: int)
    requires forall i :: 0 <= i < |l| ==> l[i].id <= from || l[i].id > to
    ensures Between(l, from, to) == []
  {
    if l != [] { BetweenNone(l[..|l| - 1], from, to); }
  }

  /** ... namely exactly those rows, in id order. */
  lemma {:induction false} BetweenIs(l: seq<Txn>, from: int, to: int)
    requires IdOrdered(l)
    ensures IdOrdered(Between(l, from, to))
    ensures forall t :: t in Between(l, from, to) <==> t in l && from < t.id <= to
  {
    if l != [] {
      var init := l[..|l| - 1];
      BetweenIs(init, from, to);
      assert l == init + [l[|l| - 1]];
      var r := Between(init, from, to);
      forall i | 0 <= i < |r|
        ensures r[i].id < l[|l| - 1].id
      {
        assert r[i] in r && r[i] in init;
      }
    }
  }

  /** What a prefix of the ledger delivers is what the whole ledger has up to the prefix's head. */
  lemma {:induction false} AfterIsBetween(p: seq<Txn>, l: seq<Txn>, id: int)
    requires p <= l && IdOrdered(l)
    ensures After(p, id) == Between(l, id, LatestId(p))
    decreases |l|
  {
    if l == p {
      AfterIsBetweenSelf(l, id, LatestId(l));
    } else {
      assert l[|l| - 1].id > LatestId(p);
      AfterIsBetween(p, l[..|l| - 1], id);
    }
  }

  lemma {:induction false} AfterIsBetweenSelf(l: seq<Txn>, id: int, to: int)
    requires forall i :: 0 <= i < |l| ==> l[i].id <= to
    ensures After(l, id) == Between(l, id, to)
  {
    if l != [] { AfterIsBetweenSelf(l[..|l| - 1], id, to); }
  }

  lemma PrefixOrdered(p: seq<Txn>, l: seq<Txn>)
    requires p <= l && IdOrdered(l)
    ensures IdOrdered(p) && LatestId(p) <= LatestId(l)
  {
    if p != [] { assert p[|p| - 1] == l[|p| - 1]; }
    assert forall i :: 0 <= i < |p| ==> p[i] == l[i];
  }

  /**
   * Over an append-only ledger, with any failures and at any speed, the callbacks are exactly the
   * rows after the starting id up to the position, each once and in id order.
   */
  lemma {:induction false} DeliversExactlyOnce(l: seq<Txn>, head: Option<seq<Txn>>, ps: seq<Poll>)
    requires IdOrdered(l) && (head.Some? ==> head.value <= l)
    requires forall i :: 0 <= i < |ps| ==> Sees(ps[i], l)
    ensures Begin(head).alive && Begin(head).delivered == []
    ensures Begin(head).position == if head.Some? && head.value != [] then head.value[|head.value| - 1].id else -1
    ensures var start := Begin(head); var r := Run(start, ps);
      && start.position <= r.position <= (if LatestId(l) > start.position then LatestId(l) else start.position)
      && r.delivered == Between(l, start.position, r.position)
  {
    var start := Begin(head);
    if ps == [] {
      BetweenNone(l, start.position, start.position);
    } else {
      var m := Run(start, ps[..|ps| - 1]);
      var p := ps[|ps| - 1];
      DeliversExactlyOnce(l, head, ps[..|ps| - 1]);
      assert Sees(p, l);
      DeliverStep(l, start.position, m, p);
    }
  }

  lemma DeliverStep(l: seq<Txn>, from: int, m: Reader, p: Poll)
    requires IdOrdered(l) && Sees(p, l) && from <= m.position
    requires m.delivered == Between(l, from, m.position)
    ensures var r := Step(m, p);
      && m.position <= r.position && (r.position == m.position || r.position <= LatestId(l))
      && r.delivered == Between(l, from, r.position)
  {
    if m.alive && p.rows.Some? && p.head.Some? && LatestId(p.head.value) > m.position {
      var rows := p.rows.value;
      PrefixOrdered(rows, l);
      AfterLast(rows, m.position);
      AfterIsBetween(rows, l, m.position);
      if LatestId(rows) > m.position {
        BetweenSteps(l, from, m.position, LatestId(rows));
      } else {
        assert After(rows, m.position) == [];
      }
    }
  }

  /**
   * Progress: a poll whose two queries succeed leaves a live reader at the head its row query saw,
   * with every row up to there delivered.
   */
  lemma PollCatchesUp(l: seq<Txn>, r: Reader, head: seq<Txn>, rows: seq<Txn>)
    requires IdOrdered(l) && head <= rows <= l && r.alive && STARTING_ID <= r.position <= LatestId(head)
    ensures var t := Step(r, Poll(Some(head), Some(rows)));
      && t.alive
      && t.position == (if r.position < LatestId(head) then LatestId(rows) else r.position)
      && t.delivered == r.delivered + Between(l, r.position, t.position)
  {
    PrefixOrdered(rows, l);
    PrefixOrdered(head, rows);
    if r.position < LatestId(head) {
      AfterLast(rows, r.position);
      AfterIsBetween(rows, l, r.position);
    } else {
      BetweenNone(l, r.position, r.position);
    }
  }

  // ---------- the reader's own form ----------

  /** The first n callbacks of a batch, one after another. */
  function CallbackFirst(cfg: LedgerCache.Config, cache: map<Account, LedgerCache.Entry>, ts: seq<Txn>, n: nat)
    : map<Account, LedgerCache.Entry>
    requires n <= |ts|
  {
    if n == 0 then cache else LedgerCache.Callback(cfg, CallbackFirst(cfg, cache, ts, n - 1), ts[n - 1])
  }

  function CallbackAll(cfg: LedgerCache.Config, cache: map<Account, LedgerCache.Entry>, ts: seq<Txn>)
    : map<Account, LedgerCache.Entry>
  {
    CallbackFirst(cfg, cache, ts, |ts|)
  }

  function Deliveries(n: nat): seq<LedgerCache.Event> {
    if n == 0 then [] else Deliveries(n - 1) + [LedgerCache.Deliver]
  }

  lemma RunOneMore(cfg: LedgerCache.Config, s: LedgerCache.Sys, es: seq<LedgerCache.Event>, e: LedgerCache.Event)
    ensures LedgerCache.Run(cfg, s, es + [e]) == LedgerCache.Apply(cfg, LedgerCache.Run(cfg, s, es), e)
  {
    var all := es + [e];
    assert all[..|all| - 1] == es;
  }

  lemma DeliverNext(cfg: LedgerCache.Config, m: LedgerCache.Sys)
    requires m.pos < |m.ledger|
    ensures var t := LedgerCache.Apply(cfg, m, LedgerCache.Deliver);
      t.ledger == m.ledger && t.pos == m.pos + 1 && t.cache == LedgerCache.Callback(cfg, m.cache, m.ledger[m.pos])
  {
  }

  /** A batch handed over by the reader is as many deliveries of the cache protocol. */
  lemma {:induction false} BatchIsDeliveries(cfg: LedgerCache.Config, s: LedgerCache.Sys, ts: seq<Txn>, n: nat)
    requires n <= |ts| && s.pos + |ts| <= |s.ledger|
    requires forall i :: 0 <= i < |ts| ==> ts[i] == s.ledger[s.pos + i]
    ensures var t := LedgerCache.Run(cfg, s, Deliveries(n));
      t.ledger == s.ledger && t.pos == s.pos + n && t.cache == CallbackFirst(cfg, s.cache, ts, n)
    decreases n
  {
    if n > 0 {
      BatchIsDeliveries(cfg, s, ts, n - 1);
      BatchNext(cfg, s, Deliveries(n - 1), ts[n - 1]);
    }
  }

  lemma BatchNext(cfg: LedgerCache.Config, s: LedgerCache.Sys, es: seq<LedgerCache.Event>, t: Txn)
    requires var m := LedgerCache.Run(cfg, s, es); m.pos < |m.ledger| && m.ledger[m.pos] == t
    ensures var m := LedgerCache.Run(cfg, s, es); var n := LedgerCache.Run(cfg, s, es + [LedgerCache.Deliver]);
      n.ledger == m.ledger && n.pos == m.pos + 1 && n.cache == LedgerCache.Callback(cfg, m.cache, t)
  {
    RunOneMore(cfg, s, es, LedgerCache.Deliver);
    DeliverNext(cfg, LedgerCache.Run(cfg, s, es));
  }

  class Poller {
    const cfg: LedgerCache.Config
    var cache: map<Account, LedgerCache.Entry>
    var latestTransactionId: int
    var alive: bool
    var delivered: seq<Txn>

    ghost function State(): Reader
      reads this
    {
      Reader(latestTransactionId, alive, delivered)
    }

    constructor (cfg: LedgerCache.Config, head: Option<seq<Txn>>)
      ensures this.cfg == cfg && State() == Begin(head) && cache == map[]
    {
      this.cfg := cfg;
      cache := map[];
      latestTransactionId := STARTING_ID;
      alive := true;
      delivered := [];
      if head.Some? { latestTransactionId := LatestId(head.value); }
    }

    /** The callback: update the cached accounts on both ends of the transaction. */
    method ProcessTransaction(t: Txn)
      modifies this`cache
      ensures cache == LedgerCache.Callback(cfg, old(cache), t)
    {
      if t.fromRoute == cfg.local && t.fromAcct in cache {
        cache := LedgerCache.Process(cfg, cache, t.fromAcct, -t.amount, t);
      }
      if t.toRoute == cfg.local && t.toAcct in cache {
        cache := LedgerCache.Process(cfg, cache, t.toAcct, t.amount, t);
      }
    }

    method PollTransactions(rows: seq<Txn>) returns (latestId: int)
      modifies this`cache, this`delivered
      ensures delivered == old(delivered) + After(rows, latestTransactionId)
      ensures cache == CallbackAll(cfg, old(cache), After(rows, latestTransactionId))
      ensures var news := After(rows, latestTransactionId);
        latestId == if news == [] then latestTransactionId else news[|news| - 1].id
    {
      latestId := latestTransactionId;
      var news := After(rows, latestTransactionId);
      for i := 0 to |news|
        invariant delivered == old(delivered) + news[..i]
        invariant cache == CallbackFirst(cfg, old(cache), news, i)
        invariant latestId == if i == 0 then latestTransactionId else news[i - 1].id
      {
        ProcessTransaction(news[i]);
        delivered := delivered + [news[i]];
        latestId := news[i].id;
      }
      assert news[..|news|] == news;
    }

    /** One iteration of the background loop; a row query that fails ends the thread. */
    method PollOnce(p: Poll)
      modifies this
      ensures State() == Step(old(State()), p)
      ensures old(delivered) <= delivered
      ensures cache == CallbackAll(cfg, old(cache), delivered[|old(delivered)|..])
    {
      if !alive { return; }
      var remoteLatest := latestTransactionId;
      if p.head.Some? { remoteLatest := LatestId(p.head.value); }
      if remoteLatest > latestTransactionId {
        if p.rows.None? { alive := false; return; }
        var latest := PollTransactions(p.rows.value);
        latestTransactionId := latest;
      } else if remoteLatest < latestTransactionId {
        alive := false;
      }
    }
  }
}
