/** The wallets a run of the ledger leaves are those of its wallet statements alone, in any credit-first order. */
module WalletHistory {
  import opened Wrappers
  import opened Ledger
  import opened LedgerLaws
  import opened LedgerRuns
  import W = Wallets

  /** The wallet statement of an operation that passes its guard. */
  function ChangesOf(b: Books, op: Op): seq<W.Change>
    requires !op.Ingest? ==> op.id in b.purchases
  {
    match op
    case Ingest(_, req) => [W.CreditPending(req.userId, CashbackOf(req))]
    case ReverseByAdmin(id) => [ReversalChange(b.purchases[id])]
    case _ => if b.purchases[op.id].cashback > 0 then [SettlementChange(op, b.purchases[op.id])] else []
  }

  function StepHistory(s: State, op: Op): seq<W.Change> {
    if Guard(s.books, op).None? then ChangesOf(s.books, op) else []
  }

  /** All the wallet statements of a run, in commit order. */
  function History(s: State, ops: seq<Op>): seq<W.Change>
    decreases |ops|
  {
    if ops == [] then []
    else StepHistory(s, ops[0]) + History(Apply(s, ops[0]), ops[1..])
  }

  lemma {:induction false} RunOfPrefix(cs: seq<W.Change>, c: W.Change, n: nat)
    requires n <= |cs|
    ensures W.Run(cs + [c], n) == W.Run(cs, n)
  {
    if n == 0 {
    } else {
      RunOfPrefix(cs, c, n - 1);
    }
  }

  lemma {:induction false} FirstCreditOfPrefix(cs: seq<W.Change>, c: W.Change, n: nat, u: Uuid)
    requires n <= |cs|
    ensures W.FirstCredit(cs + [c], n, u) == W.FirstCredit(cs, n, u)
  {
    if n == 0 {
    } else {
      FirstCreditOfPrefix(cs, c, n - 1, u);
    }
  }

  /** Appending a statement whose wallet exists, or a credit, keeps the history credit-first. */
  lemma AppendChange(cs: seq<W.Change>, c: W.Change)
    requires W.CreditFirst(cs) && (c.CreditPending? || c.userId in W.Run(cs, |cs|))
    ensures W.CreditFirst(cs + [c]) && W.Run(cs + [c], |cs| + 1) == W.Apply(W.Run(cs, |cs|), c)
  {
    var ds := cs + [c];
    RunOfPrefix(cs, c, |cs|);
    forall u, j | 0 <= j < W.FirstCredit(ds, |ds|, u)
      ensures ds[j].userId != u
    {
      FirstCreditOfPrefix(cs, c, |cs|, u);
      W.RunCountsFromFirstCredit(cs, |cs|, u, W.PaidBalance);
      assert 0 <= j < W.FirstCredit(cs, |cs|, u) ==> cs[j].userId != u;
    }
  }

  lemma WriteChangesWallets(b: Books, op: Op)
    requires !op.Ingest? ==> op.id in b.purchases
    ensures Write(b, op).wallets
         == if ChangesOf(b, op) == [] then b.wallets else W.Apply(b.wallets, ChangesOf(b, op)[0])
    ensures |ChangesOf(b, op)| <= 1
    ensures ChangesOf(b, op) != [] && !ChangesOf(b, op)[0].CreditPending? ==>
      !op.Ingest? && ChangesOf(b, op)[0].userId == b.purchases[op.id].userId
  {
  }

  lemma StepLeavesWallets(s: State, op: Op, cs: seq<W.Change>)
    requires ThreeBooks(s.books) && W.CreditFirst(cs) && W.Run(cs, |cs|) == s.books.wallets
    ensures var ds := cs + StepHistory(s, op);
            W.CreditFirst(ds) && W.Run(ds, |ds|) == Apply(s, op).books.wallets
  {
    var added := StepHistory(s, op);
    if Guard(s.books, op).None? {
      WriteChangesWallets(s.books, op);
    }
    if added == [] {
      assert cs + added == cs;
    } else {
      assert added == [added[0]];
      AppendChange(cs, added[0]);
    }
  }

  lemma HistoryUnrolls(s: State, ops: seq<Op>, cs: seq<W.Change>)
    requires ops != []
    ensures cs + History(s, ops) == cs + StepHistory(s, ops[0]) + History(Apply(s, ops[0]), ops[1..])
  {
  }

  lemma ApplyKeepsThreeBooks(s: State, op: Op)
    requires ThreeBooks(s.books)
    ensures ThreeBooks(Apply(s, op).books)
  {
    if Guard(s.books, op).None? {
      CommitKeepsThreeBooks(s, op);
    }
  }

  lemma {:induction false} HistoryLeavesWallets(s: State, ops: seq<Op>, cs: seq<W.Change>)
    requires ThreeBooks(s.books) && W.CreditFirst(cs) && W.Run(cs, |cs|) == s.books.wallets
    ensures var ds := cs + History(s, ops);
            W.CreditFirst(ds) && W.Run(ds, |ds|) == Run(s, ops).books.wallets
    decreases |ops|
  {
    if ops == [] {
      assert cs + History(s, ops) == cs;
    } else {
      var ds := cs + StepHistory(s, ops[0]);
      StepLeavesWallets(s, ops[0], cs);
      ApplyKeepsThreeBooks(s, ops[0]);
      HistoryLeavesWallets(Apply(s, ops[0]), ops[1..], ds);
      HistoryUnrolls(s, ops, cs);
    }
  }

  /** Every run from the start writes a credit-first history, which alone determines the wallets. */
  lemma WalletsFollowHistory(ops: seq<Op>)
    ensures var cs := History(INITIAL, ops);
            W.CreditFirst(cs) && W.Run(cs, |cs|) == Run(INITIAL, ops).books.wallets
  {
    InitialIsConsistent();
    HistoryLeavesWallets(INITIAL, ops, []);
    assert [] + History(INITIAL, ops) == History(INITIAL, ops);
  }

  /** Two runs that commit the same wallet statements, in whatever orders, leave the same wallets. */
  lemma CommitOrderOfRunsIsIrrelevant(ops: seq<Op>, ops': seq<Op>)
    requires multiset(History(INITIAL, ops)) == multiset(History(INITIAL, ops'))
    ensures Run(INITIAL, ops).books.wallets == Run(INITIAL, ops').books.wallets
  {
    WalletsFollowHistory(ops);
    WalletsFollowHistory(ops');
    W.CommitOrderIsIrrelevant(History(INITIAL, ops), History(INITIAL, ops'));
  }

  // ----- settled once

  /** Takes money from the pending balance. */
  predicate Debits(c: W.Change) {
    (c.ConfirmPending? || c.ReversePending?) && c.amount > 0
  }

  function StepDebits(s: State, op: Op, id: Uuid): seq<W.Change> {
    var cs := if op.id == id then StepHistory(s, op) else [];
    if cs != [] && Debits(cs[0]) then cs else []
  }

  /** Of a run's wallet statements, those on one purchase that take money from the pending balance. */
  function PendingDebits(s: State, ops: seq<Op>, id: Uuid): seq<W.Change>
    decreases |ops|
  {
    if ops == [] then [] else StepDebits(s, ops[0], id) + PendingDebits(Apply(s, ops[0]), ops[1..], id)
  }

  predicate Settled(b: Books, id: Uuid) {
    id in b.purchases && b.purchases[id].status != Pending
  }

  /** `cs` is one debit of what the purchase's transaction says, if there is anything to take; else nothing. */
  ghost predicate IsTheDebit(cs: seq<W.Change>, b: Books, id: Uuid) {
    if id in b.transactions && b.transactions[id].amount > 0 then
      && |cs| == 1 && Debits(cs[0])
      && cs[0].userId == b.transactions[id].userId && cs[0].amount == b.transactions[id].amount
    else cs == []
  }

  lemma OthersStaySettled(s: State, op: Op, id: Uuid)
    requires op.id != id
    ensures Settled(Apply(s, op).books, id) == Settled(s.books, id)
  {
    if Guard(s.books, op).None? {
      WriteFramesPurchases(s.books, op, id);
    }
  }

  lemma OwnDebit(s: State, op: Op)
    requires !op.Ingest? && Guard(s.books, op).None? && op.id in s.books.transactions
    requires RowsAgree(s.books.purchases[op.id], s.books.transactions[op.id])
    ensures if !Settled(s.books, op.id) then IsTheDebit(StepDebits(s, op, op.id), s.books, op.id)
            else StepDebits(s, op, op.id) == []
  {
  }

  /** An operation takes the purchase's cashback from the pending balance exactly when it settles the purchase. */
  lemma StepDebitsOnSettling(s: State, op: Op, id: Uuid)
    requires ThreeBooks(s.books)
    ensures var b' := Apply(s, op).books;
            if !Settled(s.books, id) && Settled(b', id) then IsTheDebit(StepDebits(s, op, id), b', id)
            else StepDebits(s, op, id) == []
  {
    if op.id != id {
      OthersStaySettled(s, op, id);
    } else if Guard(s.books, op).None? {
      WriteFramesPurchases(s.books, op, id);
      if !op.Ingest? {
        CommitKeepsAmounts(s, op);
        OwnDebit(s, op);
      }
    }
  }

  lemma ApplyKeepsTransaction(s: State, op: Op, id: Uuid)
    requires id in s.books.transactions
    ensures var ts, ts' := s.books.transactions, Apply(s, op).books.transactions;
            id in ts' && ts'[id].amount == ts[id].amount && ts'[id].userId == ts[id].userId
  {
    if Guard(s.books, op).None? {
      CommitKeepsAmounts(s, op);
    }
  }

  lemma {:induction false} RunKeepsTransaction(s: State, ops: seq<Op>, id: Uuid)
    requires id in s.books.transactions
    ensures var ts, ts' := s.books.transactions, Run(s, ops).books.transactions;
            id in ts' && ts'[id].amount == ts[id].amount && ts'[id].userId == ts[id].userId
    decreases |ops|
  {
    if ops == [] {
    } else {
      ApplyKeepsTransaction(s, ops[0], id);
      RunKeepsTransaction(Apply(s, ops[0]), ops[1..], id);
    }
  }

  /** A settled purchase is settled for good, and nothing more is taken for it. */
  lemma {:induction false} SettledTakesNothing(s: State, ops: seq<Op>, id: Uuid)
    requires ThreeBooks(s.books) && Settled(s.books, id)
    ensures Settled(Run(s, ops).books, id) && PendingDebits(s, ops, id) == []
    decreases |ops|
  {
    if ops == [] {
    } else {
      StatusesMoveForward(s, [ops[0]], id);
      assert Run(s, [ops[0]]) == Apply(s, ops[0]);
      StepDebitsOnSettling(s, ops[0], id);
      ApplyKeepsThreeBooks(s, ops[0]);
      SettledTakesNothing(Apply(s, ops[0]), ops[1..], id);
    }
  }

  /**
   * Over any run, a purchase's wallet statements take its cashback from the pending balance once, and all of
   * it, if the purchase is settled in the run and has any cashback; otherwise they take nothing.
   */
  lemma {:induction false} SettledOnce(s: State, ops: seq<Op>, id: Uuid)
    requires ThreeBooks(s.books)
    ensures var b' := Run(s, ops).books;
            if !Settled(s.books, id) && Settled(b', id) then IsTheDebit(PendingDebits(s, ops, id), b', id)
            else PendingDebits(s, ops, id) == []
    decreases |ops|
  {
    if Settled(s.books, id) {
      SettledTakesNothing(s, ops, id);
    } else if ops == [] {
    } else {
      var s1 := Apply(s, ops[0]);
      StepDebitsOnSettling(s, ops[0], id);
      ApplyKeepsThreeBooks(s, ops[0]);
      if Settled(s1.books, id) {
        SettledTakesNothing(s1, ops[1..], id);
        RunKeepsTransaction(s1, ops[1..], id);
      } else {
        SettledOnce(s1, ops[1..], id);
      }
    }
  }
}
