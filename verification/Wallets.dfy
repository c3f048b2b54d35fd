/** The wallets table: an upserting credit and three relative updates that do nothing when the row is missing. */
module Wallets {
  import opened Wrappers

  datatype Wallet = Wallet(pending: int, available: int, paid: int)

  type Table = map<Uuid, Wallet>

  datatype Change =
    | CreditPending(userId: Uuid, amount: int)
    | ConfirmPending(userId: Uuid, amount: int)
    | ReversePending(userId: Uuid, amount: int)
    | ReverseAvailable(userId: Uuid, amount: int)

  /** What an UPDATE, or the conflict branch of the credit, makes of the user's row. */
  function Updated(w: Wallet, c: Change): Wallet {
    match c
    case CreditPending(_, a) => w.(pending := w.pending + a)
    case ConfirmPending(_, a) => w.(pending := w.pending - a, available := w.available + a)
    case ReversePending(_, a) => w.(pending := w.pending - a)
    case ReverseAvailable(_, a) => w.(available := w.available - a)
  }

  /** One statement: INSERT .. ON CONFLICT DO UPDATE for a credit, a plain UPDATE otherwise. */
  function Apply(t: Table, c: Change): Table {
    if c.userId in t then t[c.userId := Updated(t[c.userId], c)]
    else if c.CreditPending? then t[c.userId := Wallet(c.amount, 0, 0)]
    else t
  }

  /** The balances a user is shown; a user without a row has three zeros. */
  function Balance(t: Table, userId: Uuid): Wallet {
    if userId in t then t[userId] else Wallet(0, 0, 0)
  }

  /** A change of an existing row updates that row and no other. */
  lemma ApplyUpdates(t: Table, c: Change, userId: Uuid)
    requires c.userId in t
    ensures Balance(Apply(t, c), userId)
         == if userId == c.userId then Updated(Balance(t, userId), c) else Balance(t, userId)
  {
  }

  // ----- the order of commits

  datatype Column = PendingBalance | AvailableBalance | PaidBalance

  function Get(w: Wallet, col: Column): int {
    match col
    case PendingBalance => w.pending
    case AvailableBalance => w.available
    case PaidBalance => w.paid
  }

  /** What a change adds to a column of a user. */
  function Delta(c: Change, userId: Uuid, col: Column): int {
    if c.userId != userId then 0
    else
      match (c, col)
      case (CreditPending(_, a), PendingBalance) => a
      case (ConfirmPending(_, a), PendingBalance) => -a
      case (ConfirmPending(_, a), AvailableBalance) => a
      case (ReversePending(_, a), PendingBalance) => -a
      case (ReverseAvailable(_, a), AvailableBalance) => -a
      case _ => 0
  }

  /** A change moves its own user's balances by its delta, unless it is an UPDATE of a missing row. */
  lemma ApplyMovesBalance(t: Table, c: Change, userId: Uuid, col: Column)
    ensures Get(Balance(Apply(t, c), userId), col)
         == Get(Balance(t, userId), col) + if c.userId in t || c.CreditPending? then Delta(c, userId, col) else 0
    ensures userId in Apply(t, c) <==> userId in t || (c.CreditPending? && c.userId == userId)
  {
  }

  /** The table after the first `n` changes have been committed, starting from an empty one. */
  function Run(cs: seq<Change>, n: nat): Table
    requires n <= |cs|
  {
    if n == 0 then map[] else Apply(Run(cs, n - 1), cs[n - 1])
  }

  /** The changes at positions `lo` to `hi`, added up for one column of a user. */
  function DeltaSum(cs: seq<Change>, lo: nat, hi: nat, userId: Uuid, col: Column): int
    requires lo <= hi <= |cs|
    decreases hi
  {
    if lo == hi then 0 else DeltaSum(cs, lo, hi - 1, userId, col) + Delta(cs[hi - 1], userId, col)
  }

  /** The position of the user's first credit, or `n` when there is none among the first `n` changes. */
  function FirstCredit(cs: seq<Change>, n: nat, userId: Uuid): (i: nat)
    requires n <= |cs|
    ensures i <= n
    ensures i < n ==> cs[i].CreditPending? && cs[i].userId == userId
    ensures forall j :: 0 <= j < i ==> !(cs[j].CreditPending? && cs[j].userId == userId)
  {
    if n == 0 then 0
    else
      var i := FirstCredit(cs, n - 1, userId);
      if i < n - 1 || (cs[n - 1].CreditPending? && cs[n - 1].userId == userId) then i else n
  }

  /** Whatever the order, a user's balances are the sum of the changes from the first credit on. */
  lemma {:induction false} RunCountsFromFirstCredit(cs: seq<Change>, n: nat, userId: Uuid, col: Column)
    requires n <= |cs|
    ensures userId in Run(cs, n) <==> FirstCredit(cs, n, userId) < n
    ensures Get(Balance(Run(cs, n), userId), col) == DeltaSum(cs, FirstCredit(cs, n, userId), n, userId, col)
  {
    if n == 0 {
    } else {
      RunCountsFromFirstCredit(cs, n - 1, userId, col);
      ApplyMovesBalance(Run(cs, n - 1), cs[n - 1], userId, col);
    }
  }

  lemma {:induction false} DeltaSumSplits(cs: seq<Change>, lo: nat, mid: nat, hi: nat, userId: Uuid, col: Column)
    requires lo <= mid <= hi <= |cs|
    ensures DeltaSum(cs, lo, hi, userId, col)
         == DeltaSum(cs, lo, mid, userId, col) + DeltaSum(cs, mid, hi, userId, col)
    decreases hi
  {
    if mid == hi {
    } else {
      DeltaSumSplits(cs, lo, mid, hi - 1, userId, col);
    }
  }

  /** The balance is the sum of all the changes exactly when those made before the first credit cancel out. */
  lemma BalanceIsDeltaSumIff(cs: seq<Change>, userId: Uuid, col: Column)
    ensures Get(Balance(Run(cs, |cs|), userId), col) == DeltaSum(cs, 0, |cs|, userId, col)
       <==> DeltaSum(cs, 0, FirstCredit(cs, |cs|, userId), userId, col) == 0
  {
    RunCountsFromFirstCredit(cs, |cs|, userId, col);
    DeltaSumSplits(cs, 0, FirstCredit(cs, |cs|, userId), |cs|, userId, col);
  }

  /** No change of a user comes before the user's first credit. */
  ghost predicate CreditFirst(cs: seq<Change>) {
    forall u, j :: 0 <= j < FirstCredit(cs, |cs|, u) ==> cs[j].userId != u
  }

  lemma {:induction false} NothingOfUser(cs: seq<Change>, n: nat, userId: Uuid, col: Column)
    requires n <= |cs| && forall j :: 0 <= j < n ==> cs[j].userId != userId
    ensures DeltaSum(cs, 0, n, userId, col) == 0
  {
    if n == 0 {
    } else {
      NothingOfUser(cs, n - 1, userId, col);
    }
  }

  lemma CreditFirstBalance(cs: seq<Change>, userId: Uuid, col: Column)
    requires CreditFirst(cs)
    ensures Get(Balance(Run(cs, |cs|), userId), col) == DeltaSum(cs, 0, |cs|, userId, col)
    ensures userId in Run(cs, |cs|) <==> exists c :: c in cs && c.userId == userId
  {
    NothingOfUser(cs, FirstCredit(cs, |cs|, userId), userId, col);
    BalanceIsDeltaSumIff(cs, userId, col);
    RunCountsFromFirstCredit(cs, |cs|, userId, col);
  }

  /** The sum over a bag of changes, taken in any order. */
  ghost function BagSum(bag: multiset<Change>, userId: Uuid, col: Column): int {
    if bag == multiset{} then 0
    else
      var c :| c in bag;
      Delta(c, userId, col) + BagSum(bag - multiset{c}, userId, col)
  }

  lemma BagSwap(bag: multiset<Change>, c: Change, d: Change)
    requires c in bag && d in bag && c != d
    ensures c in bag - multiset{d} && d in bag - multiset{c}
    ensures bag - multiset{d} - multiset{c} == bag - multiset{c} - multiset{d}
    ensures |bag - multiset{c}| < |bag| && |bag - multiset{d}| < |bag|
  {
  }

  lemma BagSumPick(bag: multiset<Change>, userId: Uuid, col: Column) returns (c: Change)
    requires bag != multiset{}
    ensures c in bag
    ensures BagSum(bag, userId, col) == Delta(c, userId, col) + BagSum(bag - multiset{c}, userId, col)
  {
    c :| c in bag && BagSum(bag, userId, col) == Delta(c, userId, col) + BagSum(bag - multiset{c}, userId, col);
  }

  lemma {:induction false} BagSumRemove(bag: multiset<Change>, c: Change, userId: Uuid, col: Column)
    requires c in bag
    ensures BagSum(bag, userId, col) == Delta(c, userId, col) + BagSum(bag - multiset{c}, userId, col)
    decreases |bag|
  {
    var d := BagSumPick(bag, userId, col);
    if d != c {
      BagSwap(bag, c, d);
      BagSumRemove(bag - multiset{d}, c, userId, col);
      BagSumRemove(bag - multiset{c}, d, userId, col);
    }
  }

  lemma PrefixBag(cs: seq<Change>, n: nat)
    requires 0 < n <= |cs|
    ensures cs[n - 1] in multiset(cs[..n])
    ensures multiset(cs[..n]) - multiset{cs[n - 1]} == multiset(cs[..n - 1])
  {
    assert cs[..n] == cs[..n - 1] + [cs[n - 1]];
  }

  lemma {:induction false} DeltaSumIsBagSum(cs: seq<Change>, n: nat, userId: Uuid, col: Column)
    requires n <= |cs|
    ensures DeltaSum(cs, 0, n, userId, col) == BagSum(multiset(cs[..n]), userId, col)
  {
    if n == 0 {
    } else {
      DeltaSumIsBagSum(cs, n - 1, userId, col);
      PrefixBag(cs, n);
      BagSumRemove(multiset(cs[..n]), cs[n - 1], userId, col);
    }
  }

  lemma SameColumn(cs: seq<Change>, ds: seq<Change>, userId: Uuid, col: Column)
    requires multiset(cs) == multiset(ds) && CreditFirst(cs) && CreditFirst(ds)
    ensures Get(Balance(Run(cs, |cs|), userId), col) == Get(Balance(Run(ds, |ds|), userId), col)
  {
    CreditFirstBalance(cs, userId, col);
    CreditFirstBalance(ds, userId, col);
    DeltaSumIsBagSum(cs, |cs|, userId, col);
    DeltaSumIsBagSum(ds, |ds|, userId, col);
    assert cs[..|cs|] == cs && ds[..|ds|] == ds;
  }

  /** Two orders of the same changes that both start each user with a credit leave the same table. */
  lemma CommitOrderIsIrrelevant(cs: seq<Change>, ds: seq<Change>)
    requires multiset(cs) == multiset(ds) && CreditFirst(cs) && CreditFirst(ds)
    ensures Run(cs, |cs|) == Run(ds, |ds|)
  {
    var s, t := Run(cs, |cs|), Run(ds, |ds|);
    forall u
      ensures u in s <==> u in t
    {
      CreditFirstBalance(cs, u, PaidBalance);
      CreditFirstBalance(ds, u, PaidBalance);
      assert forall c :: c in cs <==> c in multiset(cs);
      assert forall c :: c in ds <==> c in multiset(ds);
    }
    forall u | u in s
      ensures s[u] == t[u]
    {
      SameColumn(cs, ds, u, PendingBalance);
      SameColumn(cs, ds, u, AvailableBalance);
      SameColumn(cs, ds, u, PaidBalance);
    }
  }
}
