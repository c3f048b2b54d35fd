/** What the laws of the ledger say about whole runs. */
module LedgerRuns {
  import opened Wrappers
  import opened Sums
  import opened Ledger
  import opened LedgerLaws
  import Wallets

  // ----- the law as intended, and when the code departs from it

  /** The user's wallet is exactly what the purchases say. */
  ghost predicate BalancedAsIntended(s: State, u: Uuid) {
    Wallets.Balance(s.books.wallets, u)
      == Wallets.Wallet(Owed(s.books.purchases, u, Pending), Owed(s.books.purchases, u, Confirmed), 0)
  }

  /** No purchase of the user that was reversed while rejected carried any cashback. */
  ghost predicate NothingClawedBack(s: State, u: Uuid) {
    forall id :: id in s.clawed && id in s.books.transactions && s.books.transactions[id].userId == u
        ==> s.books.transactions[id].amount == 0
  }

  lemma OwedIsNonNegative(ps: map<Uuid, Purchase>, u: Uuid, st: Status)
    ensures Owed(ps, u, st) >= 0
  {
    SumNonNegative(map id | id in ps :: Amount(ps[id], u, st));
  }

  /** The intended law holds for a user exactly when reversals of rejected purchases took nothing. */
  lemma IntendedLawIff(s: State, u: Uuid)
    requires Sound(s)
    ensures BalancedAsIntended(s, u) <==> NothingClawedBack(s, u)
  {
    var ts := s.books.transactions;
    var m := map id | id in ts :: ClawedAmount(ts[id], id in s.clawed, u);
    assert Balanced(s, u);
    SumZeroIff(m);
    assert forall id :: id in ts && id in s.clawed && ts[id].userId == u ==> m[id] == ts[id].amount;
  }

  /** Without reversals of rejected purchases the law is the intended one, and no balance is ever negative. */
  lemma IntendedLaw(s: State, u: Uuid)
    requires Sound(s) && s.clawed == {}
    ensures BalancedAsIntended(s, u)
    ensures var w := Wallets.Balance(s.books.wallets, u); w.pending >= 0 && w.available >= 0 && w.paid == 0
  {
    IntendedLawIff(s, u);
    OwedIsNonNegative(s.books.purchases, u, Pending);
    OwedIsNonNegative(s.books.purchases, u, Confirmed);
  }

  /** Transactions are never deleted, and keep their user and amount. */
  lemma CommitKeepsAmounts(s: State, op: Op)
    requires Guard(s.books, op).None?
    ensures forall id :: id in s.books.transactions ==>
      && id in Commit(s, op).books.transactions
      && Commit(s, op).books.transactions[id].userId == s.books.transactions[id].userId
      && Commit(s, op).books.transactions[id].amount == s.books.transactions[id].amount
    ensures forall id :: id in Commit(s, op).books.transactions && id !in s.books.transactions ==>
      id == op.id && op.Ingest?
  {
  }

  lemma ClawedAfter(s: State, op: Op, u: Uuid)
    requires NothingClawedBack(s, u) && Guard(s.books, op).None? && (op.Ingest? ==> op.id !in s.clawed)
    requires s.books.transactions.Keys == s.books.purchases.Keys
    requires op.ReverseByAdmin? ==> RowsAgree(s.books.purchases[op.id], s.books.transactions[op.id])
    ensures NothingClawedBack(Commit(s, op), u) <==>
      !(op.ReverseByAdmin? && s.books.purchases[op.id].userId == u
        && s.books.purchases[op.id].status == Rejected && s.books.purchases[op.id].cashback > 0)
  {
    CommitKeepsAmounts(s, op);
  }

  /**
   * Starting from the intended law, an operation keeps it for the purchase's user unless it reverses a
   * rejected purchase that carries cashback.
   */
  lemma OperationKeepsIntendedLawIff(s: State, op: Op, u: Uuid)
    requires Sound(s) && NothingClawedBack(s, u) && Guard(s.books, op).None?
    ensures BalancedAsIntended(Apply(s, op), u) <==>
      !(op.ReverseByAdmin? && s.books.purchases[op.id].userId == u
        && s.books.purchases[op.id].status == Rejected && s.books.purchases[op.id].cashback > 0)
  {
    CommitKeepsSound(s, op);
    IntendedLawIff(Apply(s, op), u);
    assert op.ReverseByAdmin? ==> RowsAgree(s.books.purchases[op.id], s.books.transactions[op.id]);
    ClawedAfter(s, op, u);
  }

  /** Ingest, reject, reverse: the available balance goes below zero by the cashback. */
  lemma ReversingRejectedOverdraws(id: Uuid, req: Request)
    requires Guard(INITIAL.books, Ingest(id, req)).None? && CashbackOf(req) > 0
    ensures var s := Run(INITIAL, [Ingest(id, req), RejectByJob(id), ReverseByAdmin(id)]);
            Consistent(s) && Wallets.Balance(s.books.wallets, req.userId) == Wallets.Wallet(0, 0 - CashbackOf(req), 0)
  {
    var ops := [Ingest(id, req), RejectByJob(id), ReverseByAdmin(id)];
    InitialIsConsistent();
    RunKeepsConsistent(INITIAL, ops);
    var s1 := Apply(INITIAL, ops[0]);
    assert s1.books.wallets == map[req.userId := Wallets.Wallet(CashbackOf(req), 0, 0)];
    var s2 := Apply(s1, ops[1]);
    assert s2.books.wallets == map[req.userId := Wallets.Wallet(0, 0, 0)];
    var s3 := Apply(s2, ops[2]);
    assert Run(INITIAL, ops) == Run(s1, ops[1..]) == Run(s2, ops[1..][1..]) == Run(s3, ops[1..][1..][1..]) == s3;
  }

  // ----- the transaction book

  ghost function TxAmount(t: Transaction, u: Uuid, st: TxStatus): int {
    if t.userId == u && t.status == st then t.amount else 0
  }

  /** The amounts of the user's transactions in a status. */
  ghost function TxTotal(ts: map<Uuid, Transaction>, u: Uuid, st: TxStatus): int {
    Sum(map id | id in ts :: TxAmount(ts[id], u, st))
  }

  lemma TotalsAgree(b: Books, u: Uuid, st: Status, txStatus: TxStatus)
    requires ThreeBooks(b)
    requires (st == Pending && txStatus == TxPending) || (st == Confirmed && txStatus == TxAvailable)
    ensures TxTotal(b.transactions, u, txStatus) == Owed(b.purchases, u, st)
  {
    var ps, ts := b.purchases, b.transactions;
    forall id | id in ps
      ensures TxAmount(ts[id], u, txStatus) == Amount(ps[id], u, st)
    {
      assert RowsAgree(ps[id], ts[id]);
    }
    assert (map id | id in ts :: TxAmount(ts[id], u, txStatus)) == (map id | id in ps :: Amount(ps[id], u, st));
  }

  /** Transaction totals by status equal purchase totals by status, and so the wallets. */
  lemma TransactionTotals(b: Books, u: Uuid)
    requires ThreeBooks(b)
    ensures TxTotal(b.transactions, u, TxPending) == Owed(b.purchases, u, Pending)
    ensures TxTotal(b.transactions, u, TxAvailable) == Owed(b.purchases, u, Confirmed)
  {
    TotalsAgree(b, u, Pending, TxPending);
    TotalsAgree(b, u, Confirmed, TxAvailable);
  }

  // ----- statuses

  predicate After(st: Status, st': Status) {
    st' == st || (st == Pending && st' != Pending) || (st != Reversed && st' == Reversed)
  }

  /** Statuses only move forward: nothing returns to pending, and reversed is final. */
  lemma {:induction false} StatusesMoveForward(s: State, ops: seq<Op>, id: Uuid)
    requires id in s.books.purchases
    ensures id in Run(s, ops).books.purchases
    ensures After(s.books.purchases[id].status, Run(s, ops).books.purchases[id].status)
    decreases |ops|
  {
    if ops == [] {
    } else {
      if Guard(s.books, ops[0]).None? {
        WriteFramesPurchases(s.books, ops[0], id);
      }
      StatusesMoveForward(Apply(s, ops[0]), ops[1..], id);
    }
  }

  // ----- idempotent ingestion

  lemma RepeatChangesNothing(s: State, op: Op)
    requires op.Ingest? && ExternalIdTaken(s.books, op.request.externalId)
    ensures Apply(s, op) == s
  {
  }

  lemma ExternalIdStaysTaken(s: State, op: Op, ext: ExternalId)
    requires ExternalIdTaken(s.books, ext)
    ensures ExternalIdTaken(Apply(s, op).books, ext)
  {
    var id :| id in s.books.purchases && s.books.purchases[id].externalId == ext;
    assert id in Apply(s, op).books.purchases && Apply(s, op).books.purchases[id].externalId == ext;
  }

  /** The external ids accepted so far, after one more operation. */
  function Accept(s: State, accepted: set<ExternalId>, op: Op): set<ExternalId> {
    if op.Ingest? && Guard(s.books, op).None? then accepted + {op.request.externalId} else accepted
  }

  /** `padded` is `ops` with repeats of already accepted external ids inserted anywhere. */
  ghost predicate IsPadded(s: State, accepted: set<ExternalId>, ops: seq<Op>, padded: seq<Op>)
    decreases |padded|
  {
    if padded == [] then ops == []
    else
      || (padded[0].Ingest? && padded[0].request.externalId in accepted && IsPadded(s, accepted, ops, padded[1..]))
      || (ops != [] && padded[0] == ops[0]
          && IsPadded(Apply(s, ops[0]), Accept(s, accepted, ops[0]), ops[1..], padded[1..]))
  }

  lemma AcceptedIsTaken(s: State, accepted: set<ExternalId>, op: Op)
    requires forall ext :: ext in accepted ==> ExternalIdTaken(s.books, ext)
    ensures forall ext :: ext in Accept(s, accepted, op) ==> ExternalIdTaken(Apply(s, op).books, ext)
  {
    forall ext | ext in Accept(s, accepted, op)
      ensures ExternalIdTaken(Apply(s, op).books, ext)
    {
      if ext in accepted {
        ExternalIdStaysTaken(s, op, ext);
      } else {
        assert op.id in Apply(s, op).books.purchases && Apply(s, op).books.purchases[op.id].externalId == ext;
      }
    }
  }

  /** Repeating accepted ingestions, however often and wherever, leaves the final state unchanged. */
  lemma {:induction false} RepeatsChangeNothing(s: State, accepted: set<ExternalId>, ops: seq<Op>, padded: seq<Op>)
    requires forall ext :: ext in accepted ==> ExternalIdTaken(s.books, ext)
    requires IsPadded(s, accepted, ops, padded)
    ensures Run(s, padded) == Run(s, ops)
    decreases |padded|
  {
    if padded == [] {
    } else {
      if padded[0].Ingest? && padded[0].request.externalId in accepted && IsPadded(s, accepted, ops, padded[1..]) {
        RepeatChangesNothing(s, padded[0]);
        RepeatsChangeNothing(s, accepted, ops, padded[1..]);
      } else {
        AcceptedIsTaken(s, accepted, ops[0]);
        RepeatsChangeNothing(Apply(s, ops[0]), Accept(s, accepted, ops[0]), ops[1..], padded[1..]);
      }
    }
  }

  /** How many ingestions of an external id a run accepts, each with one purchase and one credit. */
  function Acceptances(s: State, ops: seq<Op>, ext: ExternalId): nat
    decreases |ops|
  {
    if ops == [] then 0
    else
      Acceptances(Apply(s, ops[0]), ops[1..], ext)
      + if ops[0].Ingest? && ops[0].request.externalId == ext && Guard(s.books, ops[0]).None? then 1 else 0
  }

  lemma ExternalIdsAfter(s: State, op: Op)
    ensures forall id :: id in s.books.purchases ==>
      && id in Apply(s, op).books.purchases
      && Apply(s, op).books.purchases[id].externalId == s.books.purchases[id].externalId
    ensures forall id :: id in Apply(s, op).books.purchases && id !in s.books.purchases ==>
      && op.Ingest? && Guard(s.books, op).None?
      && Apply(s, op).books.purchases[id].externalId == op.request.externalId
  {
    if Guard(s.books, op).None? {
      WriteKeepsExternalIds(s.books, op);
    }
  }

  /** An external id becomes taken exactly by accepting its ingestion. */
  lemma TakenAfter(s: State, op: Op, ext: ExternalId)
    ensures ExternalIdTaken(Apply(s, op).books, ext)
       <==> ExternalIdTaken(s.books, ext) || (op.Ingest? && op.request.externalId == ext && Guard(s.books, op).None?)
  {
    var ps, ps' := s.books.purchases, Apply(s, op).books.purchases;
    ExternalIdsAfter(s, op);
    if ExternalIdTaken(s.books, ext) {
      ExternalIdStaysTaken(s, op, ext);
    } else if op.Ingest? && op.request.externalId == ext && Guard(s.books, op).None? {
      assert op.id in ps' && ps'[op.id].externalId == ext;
    }
  }

  lemma {:induction false} AcceptedAtMostOnce(s: State, ops: seq<Op>, ext: ExternalId)
    ensures Acceptances(s, ops, ext)
         == if !ExternalIdTaken(s.books, ext) && ExternalIdTaken(Run(s, ops).books, ext) then 1 else 0
    ensures ExternalIdTaken(s.books, ext) ==> ExternalIdTaken(Run(s, ops).books, ext)
    decreases |ops|
  {
    if ops == [] {
    } else {
      AcceptedAtMostOnce(Apply(s, ops[0]), ops[1..], ext);
      TakenAfter(s, ops[0], ext);
    }
  }
}
