/**
 * The append-only ledger, the repository's queries over it as functions, and the validator.
 * A ledger is the sequence of its rows by rising transaction id.
 */
module Ledger {
  import opened Wrappers

  type Account = string
  type Routing = string

  datatype Txn = Txn(
    id: int, fromAcct: Account, fromRoute: Routing, toAcct: Account, toRoute: Routing,
    amount: int, timestamp: int, uuid: string)

  // ---------- balances ----------

  predicate IsCredit(t: Txn, a: Account, local: Routing) {
    t.toAcct == a && t.toRoute == local
  }

  predicate IsDebit(t: Txn, a: Account, local: Routing) {
    t.fromAcct == a && t.fromRoute == local
  }

  function Credits(l: seq<Txn>, a: Account, local: Routing): int {
    if l == [] then 0
    else Credits(l[..|l| - 1], a, local) + if IsCredit(l[|l| - 1], a, local) then l[|l| - 1].amount else 0
  }

  function Debits(l: seq<Txn>, a: Account, local: Routing): int {
    if l == [] then 0
    else Debits(l[..|l| - 1], a, local) + if IsDebit(l[|l| - 1], a, local) then l[|l| - 1].amount else 0
  }

  /** What the account truly holds after these rows. */
  function Net(l: seq<Txn>, a: Account, local: Routing): int {
    Credits(l, a, local) - Debits(l, a, local)
  }

  predicate HasCredit(l: seq<Txn>, a: Account, local: Routing) {
    exists i :: 0 <= i < |l| && IsCredit(l[i], a, local)
  }

  /** findBalance: SUM over no rows is NULL, and NULL minus the debits is NULL. */
  function FindBalance(l: seq<Txn>, a: Account, local: Routing): Option<int> {
    if HasCredit(l, a, local) then Some(Credits(l, a, local) - Debits(l, a, local)) else None
  }

  /** The loader reads a missing balance as zero. */
  function LoadedBalance(l: seq<Txn>, a: Account, local: Routing): int {
    match FindBalance(l, a, local)
    case None => 0
    case Some(b) => b
  }

  /** The debits a NULL balance hides. */
  function Hidden(l: seq<Txn>, a: Account, local: Routing): int {
    if HasCredit(l, a, local) then 0 else Debits(l, a, local)
  }

  lemma {:induction false} NoCredits(l: seq<Txn>, a: Account, local: Routing)
    requires !HasCredit(l, a, local)
    ensures Credits(l, a, local) == 0
  {
    if l != [] {
      assert !IsCredit(l[|l| - 1], a, local);
      NoCredits(l[..|l| - 1], a, local);
    }
  }

  /** A loaded balance is the true net plus whatever the NULL case hides. */
  lemma LoadedIsNetPlusHidden(l: seq<Txn>, a: Account, local: Routing)
    ensures LoadedBalance(l, a, local) == Net(l, a, local) + Hidden(l, a, local)
  {
    if !HasCredit(l, a, local) { NoCredits(l, a, local); }
  }

  lemma {:induction false} CreditsNonNegative(l: seq<Txn>, a: Account, local: Routing)
    requires AllPositive(l)
    ensures Credits(l, a, local) >= 0
  {
    if l != [] { CreditsNonNegative(l[..|l| - 1], a, local); }
  }

  /** A loaded balance is the true net if and only if the account has a credit or no debits at all. */
  lemma NullIsNetIff(l: seq<Txn>, a: Account, local: Routing)
    requires AllPositive(l)
    ensures LoadedBalance(l, a, local) == Net(l, a, local)
       <==> HasCredit(l, a, local) || forall i :: 0 <= i < |l| ==> !IsDebit(l[i], a, local)
  {
    LoadedIsNetPlusHidden(l, a, local);
    DebitsZeroIff(l, a, local);
  }

  lemma {:induction false} DebitsZeroIff(l: seq<Txn>, a: Account, local: Routing)
    requires AllPositive(l)
    ensures Debits(l, a, local) >= 0
    ensures Debits(l, a, local) == 0 <==> forall i :: 0 <= i < |l| ==> !IsDebit(l[i], a, local)
  {
    if l != [] {
      var init := l[..|l| - 1];
      assert forall i :: 0 <= i < |init| ==> init[i] == l[i];
      DebitsZeroIff(init, a, local);
    }
  }

  /** A lone debit row, written past the gate, is read as a balance of zero. */
  lemma DebitHidden(t: Txn, a: Account, local: Routing)
    requires t.amount > 0 && IsDebit(t, a, local) && !IsCredit(t, a, local)
    ensures FindBalance([t], a, local) == None && LoadedBalance([t], a, local) == 0
    ensures Net([t], a, local) == -t.amount
  {
    NetOne(t, a, local);
  }

  lemma {:induction false} NetConcat(x: seq<Txn>, y: seq<Txn>, a: Account, local: Routing)
    ensures Credits(x + y, a, local) == Credits(x, a, local) + Credits(y, a, local)
    ensures Debits(x + y, a, local) == Debits(x, a, local) + Debits(y, a, local)
    ensures Net(x + y, a, local) == Net(x, a, local) + Net(y, a, local)
  {
    if y == [] {
      assert x + y == x;
    } else {
      assert (x + y)[..|x + y| - 1] == x + y[..|y| - 1];
      NetConcat(x, y[..|y| - 1], a, local);
    }
  }

  lemma NetOne(t: Txn, a: Account, local: Routing)
    ensures Net([t], a, local) == (if IsCredit(t, a, local) then t.amount else 0) - if IsDebit(t, a, local) then t.amount else 0
    ensures Debits([t], a, local) == if IsDebit(t, a, local) then t.amount else 0
  {
    assert [t][..0] == [];
    assert Credits([t][..0], a, local) == 0 && Debits([t][..0], a, local) == 0;
  }

  lemma NetSplit(l: seq<Txn>, k: nat, a: Account, local: Routing)
    requires k <= |l|
    ensures Net(l, a, local) == Net(l[..k], a, local) + Net(l[k..], a, local)
  {
    assert l == l[..k] + l[k..];
    NetConcat(l[..k], l[k..], a, local);
  }

  predicate AllPositive(l: seq<Txn>) {
    forall i :: 0 <= i < |l| ==> l[i].amount > 0
  }

  /** Every local account is solvent after every row, and every amount is positive. */
  ghost predicate Solvent(l: seq<Txn>, local: Routing) {
    AllPositive(l) && forall k, a :: 0 <= k <= |l| ==> Net(l[..k], a, local) >= 0
  }

  /** On a solvent ledger a NULL balance hides nothing. */
  lemma SolventHidesNothing(l: seq<Txn>, k: nat, a: Account, local: Routing)
    requires Solvent(l, local) && k <= |l|
    ensures Hidden(l[..k], a, local) == 0
    ensures LoadedBalance(l[..k], a, local) == Net(l[..k], a, local)
  {
    LoadedIsNetPlusHidden(l[..k], a, local);
    DebitsZeroIff(l[..k], a, local);
    assert Net(l[..k], a, local) >= 0;
    if !HasCredit(l[..k], a, local) { NoCredits(l[..k], a, local); }
  }

  // ---------- history pages ----------

  predicate Touches(t: Txn, a: Account, local: Routing) {
    IsDebit(t, a, local) || IsCredit(t, a, local)
  }

  /** The account's rows, newest first. */
  function Recent(l: seq<Txn>, a: Account, local: Routing): seq<Txn> {
    if l == [] then []
    else (if Touches(l[|l| - 1], a, local) then [l[|l| - 1]] else []) + Recent(l[..|l| - 1], a, local)
  }

  function Take(s: seq<Txn>, n: nat): seq<Txn> {
    if |s| <= n then s else s[..n]
  }

  lemma Associate(x: seq<Txn>, y: seq<Txn>, z: seq<Txn>)
    ensures x + (y + z) == (x + y) + z
  {
  }

  lemma {:induction false} RecentConcat(x: seq<Txn>, y: seq<Txn>, a: Account, local: Routing)
    ensures Recent(x + y, a, local) == Recent(y, a, local) + Recent(x, a, local)
  {
    if y == [] {
      assert x + y == x;
    } else {
      var s := x + y;
      var init := y[..|y| - 1];
      assert s[..|s| - 1] == x + init && s[|s| - 1] == y[|y| - 1];
      RecentConcat(x, init, a, local);
      Associate([y[|y| - 1]], Recent(init, a, local), Recent(x, a, local));
    }
  }

  ghost predicate Timed(l: seq<Txn>) {
    forall i, k :: 0 <= i < k < |l| ==> l[i].timestamp < l[k].timestamp
  }

  ghost predicate Descending(s: seq<Txn>) {
    forall i, k :: 0 <= i < k < |s| ==> s[i].timestamp > s[k].timestamp
  }

  /** What ORDER BY timestamp DESC with a page size asks for. */
  ghost predicate IsPage(page: seq<Txn>, l: seq<Txn>, a: Account, local: Routing, limit: nat) {
    && Descending(page)
    && |page| <= limit
    && (forall t :: t in page ==> t in l && Touches(t, a, local))
    && (forall t :: t in l && Touches(t, a, local) && t !in page ==>
          |page| == limit && forall p :: p in page ==> t.timestamp < p.timestamp)
  }

  /** With timestamps in row order the query has one answer: the newest rows, newest first. */
  lemma {:induction false} PageIsNewest(page: seq<Txn>, l: seq<Txn>, a: Account, local: Routing, limit: nat)
    requires Timed(l) && IsPage(page, l, a, local, limit)
    ensures page == Take(Recent(l, a, local), limit)
    decreases |l|
  {
    if l == [] {
      assert forall t :: t in page ==> t in l;
      HasMember(page);
    } else if limit > 0 {
      var init := l[..|l| - 1];
      var last := l[|l| - 1];
      if Touches(last, a, local) {
        NewestLeads(page, l, a, local, limit);
        RestIsPage(page, l, a, local, limit);
        PageIsNewest(page[1..], init, a, local, limit - 1);
        TakeLonger(last, Recent(init, a, local), limit, page);
      } else {
        SamePage(page, l, a, local, limit);
        PageIsNewest(page, init, a, local, limit);
      }
    }
  }

  lemma TakeLonger(t: Txn, s: seq<Txn>, limit: nat, page: seq<Txn>)
    requires limit > 0 && page != [] && page[0] == t && page[1..] == Take(s, limit - 1)
    ensures page == Take([t] + s, limit)
  {
    assert page == [t] + page[1..];
  }

  lemma SamePage(page: seq<Txn>, l: seq<Txn>, a: Account, local: Routing, limit: nat)
    requires IsPage(page, l, a, local, limit) && l != [] && !Touches(l[|l| - 1], a, local)
    ensures IsPage(page, l[..|l| - 1], a, local, limit)
  {
    assert l == l[..|l| - 1] + [l[|l| - 1]];
  }

  lemma HasMember(s: seq<Txn>)
    ensures s != [] ==> exists t :: t in s
  {
    if s != [] { assert s[0] in s; }
  }

  lemma NewestLeads(page: seq<Txn>, l: seq<Txn>, a: Account, local: Routing, limit: nat)
    requires Timed(l) && IsPage(page, l, a, local, limit) && limit > 0
    requires l != [] && Touches(l[|l| - 1], a, local)
    ensures page != [] && page[0] == l[|l| - 1]
  {
    var last := l[|l| - 1];
    assert last in l;
    forall t | t in l && t != last
      ensures t.timestamp < last.timestamp
    {
      var i :| 0 <= i < |l| && l[i] == t;
    }
    assert page != [] ==> page[0] in page;
    assert last in page;
    var k :| 0 <= k < |page| && page[k] == last;
    assert page[0].timestamp <= last.timestamp;
    assert k == 0;
  }

  lemma RestIsPage(page: seq<Txn>, l: seq<Txn>, a: Account, local: Routing, limit: nat)
    requires Timed(l) && IsPage(page, l, a, local, limit) && limit > 0
    requires l != [] && page != [] && page[0] == l[|l| - 1]
    ensures IsPage(page[1..], l[..|l| - 1], a, local, limit - 1)
  {
    var init := l[..|l| - 1];
    var rest := page[1..];
    assert l == init + [page[0]];
    assert page == [page[0]] + rest;
    assert forall t :: t in init ==> t != page[0];
    assert forall t :: t in rest ==> t != page[0];
  }

  /** ... and that answer is a page. */
  lemma {:induction false} NewestIsPage(l: seq<Txn>, a: Account, local: Routing, limit: nat)
    requires Timed(l)
    ensures IsPage(Take(Recent(l, a, local), limit), l, a, local, limit)
  {
    var r := Recent(l, a, local);
    RecentSound(l, a, local);
    forall t | t in l && Touches(t, a, local) && t !in Take(r, limit)
      ensures |Take(r, limit)| == limit && forall p :: p in Take(r, limit) ==> t.timestamp < p.timestamp
    {
      var k :| 0 <= k < |r| && r[k] == t;
      assert forall i :: 0 <= i < |r| && i < limit ==> Take(r, limit)[i] == r[i];
    }
  }

  lemma {:induction false} RecentSound(l: seq<Txn>, a: Account, local: Routing)
    requires Timed(l)
    ensures Descending(Recent(l, a, local))
    ensures forall t :: t in Recent(l, a, local) <==> t in l && Touches(t, a, local)
    decreases |l|
  {
    if l != [] {
      var init := l[..|l| - 1];
      var last := l[|l| - 1];
      RecentSound(init, a, local);
      assert l == init + [last];
      LastIsNewest(l);
      if Touches(last, a, local) { LeadDescends(last, Recent(init, a, local)); }
    }
  }

  lemma LastIsNewest(l: seq<Txn>)
    requires Timed(l) && l != []
    ensures forall t :: t in l[..|l| - 1] ==> t.timestamp < l[|l| - 1].timestamp
  {
  }

  lemma LeadDescends(t: Txn, s: seq<Txn>)
    requires Descending(s) && forall x :: x in s ==> x.timestamp < t.timestamp
    ensures Descending([t] + s)
  {
    var r := [t] + s;
    assert forall k :: 0 < k < |r| ==> r[k] in s;
    assert forall i, k :: 0 < i < k < |r| ==> r[i] == s[i - 1] && r[k] == s[k - 1];
  }

  // ---------- validator ----------

  datatype Rejection =
    | Unauthorized
    | Duplicate
    | InvalidNumber
    | NotAuthenticated
    | SendToSelf
    | InvalidAmount
    | InsufficientBalance

  predicate Digits(s: string, n: nat) {
    |s| == n && forall i :: 0 <= i < n ==> '0' <= s[i] <= '9'
  }

  predicate SelfTransfer(t: Txn) {
    t.fromAcct == t.toAcct && t.fromRoute == t.toRoute
  }

  /** The guards in the order they are tried; None lets the transaction pass. */
  function Validate(local: Routing, authed: Account, t: Txn): Option<Rejection> {
    if !Digits(t.fromAcct, 10) || !Digits(t.toAcct, 10) || !Digits(t.fromRoute, 9) || !Digits(t.toRoute, 9) then
      Some(InvalidNumber)
    else if t.fromRoute == local && t.fromAcct != authed then Some(NotAuthenticated)
    else if SelfTransfer(t) then Some(SendToSelf)
    else if t.amount <= 0 then Some(InvalidAmount)
    else None
  }
}
