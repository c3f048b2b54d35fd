/** Every operation keeps the laws of the ledger, so they hold in every reachable state. */
module LedgerLaws {
  import opened Wrappers
  import opened Sums
  import opened Ledger
  import Wallets

  // ----- totals under the change of one row

  lemma OwedAfterUpdate(ps: map<Uuid, Purchase>, id: Uuid, p: Purchase, u: Uuid, st: Status)
    ensures Owed(ps[id := p], u, st)
         == Owed(ps, u, st) - (if id in ps then Amount(ps[id], u, st) else 0) + Amount(p, u, st)
  {
    var m := map i | i in ps :: Amount(ps[i], u, st);
    var ps' := ps[id := p];
    assert (map i | i in ps' :: Amount(ps'[i], u, st)) == m[id := Amount(p, u, st)];
    SumUpdate(m, id, Amount(p, u, st));
  }

  lemma ClawedAfterUpdate(ts: map<Uuid, Transaction>, cl: set<Uuid>, id: Uuid, t: Transaction, cl': set<Uuid>, u: Uuid)
    requires cl' == cl || cl' == cl + {id}
    ensures ClawedBack(ts[id := t], cl', u)
         == ClawedBack(ts, cl, u) - (if id in ts then ClawedAmount(ts[id], id in cl, u) else 0)
            + ClawedAmount(t, id in cl', u)
  {
    var m := map i | i in ts :: ClawedAmount(ts[i], i in cl, u);
    var ts' := ts[id := t];
    var v := ClawedAmount(t, id in cl', u);
    assert (map i | i in ts' :: ClawedAmount(ts'[i], i in cl', u)) == m[id := v];
    SumUpdate(m, id, v);
  }

  lemma NothingOwed(ps: map<Uuid, Purchase>, u: Uuid, st: Status)
    requires forall id :: id in ps ==> Amount(ps[id], u, st) == 0
    ensures Owed(ps, u, st) == 0
  {
    SumOfZeros(map id | id in ps :: Amount(ps[id], u, st));
  }

  lemma NothingClawed(ts: map<Uuid, Transaction>, clawed: set<Uuid>, u: Uuid)
    requires forall id :: id in ts ==> ClawedAmount(ts[id], id in clawed, u) == 0
    ensures ClawedBack(ts, clawed, u) == 0
  {
    SumOfZeros(map id | id in ts :: ClawedAmount(ts[id], id in clawed, u));
  }

  // ----- the balances

  lemma IngestKeepsBalance(s: State, id: Uuid, req: Request, u: Uuid)
    requires id !in s.books.purchases && id !in s.books.transactions && id !in s.clawed && Balanced(s, u)
    ensures Balanced(Commit(s, Ingest(id, req)), u)
  {
    var p := NewPurchase(req);
    OwedAfterUpdate(s.books.purchases, id, p, u, Pending);
    OwedAfterUpdate(s.books.purchases, id, p, u, Confirmed);
    var t := Transaction(req.userId, CashbackOf(req), TxPending);
    ClawedAfterUpdate(s.books.transactions, s.clawed, id, t, s.clawed, u);
  }

  /** What one row's change asks of the wallets: each column moves as the row's own amounts do. */
  lemma RowChangeBalance(s: State, s': State, id: Uuid, p: Purchase, t: Transaction, u: Uuid)
    requires id in s.books.purchases && id in s.books.transactions && Balanced(s, u)
    requires s'.books.purchases == s.books.purchases[id := p]
    requires s'.books.transactions == s.books.transactions[id := t]
    requires s'.clawed == s.clawed || s'.clawed == s.clawed + {id}
    ensures var p0, t0 := s.books.purchases[id], s.books.transactions[id];
            var w, w' := Wallets.Balance(s.books.wallets, u), Wallets.Balance(s'.books.wallets, u);
            Balanced(s', u) <==>
            && w'.pending - w.pending == Amount(p, u, Pending) - Amount(p0, u, Pending)
            && w'.available - w.available == Amount(p, u, Confirmed) - Amount(p0, u, Confirmed)
                 - ClawedAmount(t, id in s'.clawed, u) + ClawedAmount(t0, id in s.clawed, u)
            && w'.paid == w.paid
  {
    OwedAfterUpdate(s.books.purchases, id, p, u, Pending);
    OwedAfterUpdate(s.books.purchases, id, p, u, Confirmed);
    ClawedAfterUpdate(s.books.transactions, s.clawed, id, t, s'.clawed, u);
  }

  predicate Settles(op: Op) {
    op.ConfirmByJob? || op.ConfirmByAdmin? || op.RejectByJob?
  }

  function SettlementChange(op: Op, p: Purchase): Wallets.Change {
    if op.RejectByJob? then Wallets.ReversePending(p.userId, p.cashback)
    else Wallets.ConfirmPending(p.userId, p.cashback)
  }

  /** The rows and the wallets that a settlement writes. */
  lemma SettlementRows(s: State, op: Op)
    requires Settles(op) && op.id in s.books.purchases && ThreeBooks(s.books)
    ensures var p, t := s.books.purchases[op.id], s.books.transactions[op.id];
            var status, txStatus := if op.RejectByJob? then Rejected else Confirmed,
                                    if op.RejectByJob? then TxReversed else TxAvailable;
            var b' := Commit(s, op).books;
            && b'.purchases == s.books.purchases[op.id := p.(status := status)]
            && b'.transactions == s.books.transactions[op.id := if p.cashback > 0 then t.(status := txStatus) else t]
            && b'.wallets == (if p.cashback > 0 then Wallets.Apply(s.books.wallets, SettlementChange(op, p))
                              else s.books.wallets)
  {
  }

  /**
   * A settlement that has passed its guard writes without looking at the status again. It keeps the user's
   * balance exactly when the purchase is still pending or carries no cashback.
   */
  lemma SettlementBalance(s: State, op: Op, u: Uuid)
    requires Settles(op) && op.id in s.books.purchases && ThreeBooks(s.books) && Balanced(s, u)
    ensures var p := s.books.purchases[op.id];
            Balanced(Commit(s, op), u) <==> (p.userId != u || p.status == Pending || p.cashback == 0)
  {
    var s' := Commit(s, op);
    var p := s.books.purchases[op.id];
    assert p.userId in s.books.wallets;
    SettlementRows(s, op);
    Wallets.ApplyUpdates(s.books.wallets, SettlementChange(op, p), u);
    RowChangeBalance(s, s', op.id, s'.books.purchases[op.id], s'.books.transactions[op.id], u);
  }

  function ReversalChange(p: Purchase): Wallets.Change {
    if p.status == Pending then Wallets.ReversePending(p.userId, p.cashback)
    else Wallets.ReverseAvailable(p.userId, p.cashback)
  }

  lemma ReversalRows(s: State, id: Uuid)
    requires id in s.books.purchases && ThreeBooks(s.books)
    ensures var p, t := s.books.purchases[id], s.books.transactions[id];
            var b' := Commit(s, ReverseByAdmin(id)).books;
            && b'.purchases == s.books.purchases[id := p.(status := Reversed, cashback := 0)]
            && b'.transactions == s.books.transactions[id := t.(status := TxReversed)]
            && b'.wallets == Wallets.Apply(s.books.wallets, ReversalChange(p))
  {
  }

  lemma ReversalKeepsBalance(s: State, id: Uuid, u: Uuid)
    requires id in s.books.purchases && ThreeBooks(s.books) && Balanced(s, u) && id !in s.clawed
    requires s.books.purchases[id].status != Reversed
    ensures Balanced(Commit(s, ReverseByAdmin(id)), u)
  {
    var s' := Commit(s, ReverseByAdmin(id));
    var p, t := s.books.purchases[id], s.books.transactions[id];
    assert RowsAgree(p, t) && p.userId in s.books.wallets;
    ReversalRows(s, id);
    Wallets.ApplyUpdates(s.books.wallets, ReversalChange(p), u);
    RowChangeBalance(s, s', id, p.(status := Reversed, cashback := 0), t.(status := TxReversed), u);
  }

  // ----- the event log

  lemma EventsOfAppend(log: seq<Event>, es: seq<Event>, id: Uuid)
    requires |es| <= 1
    ensures EventsOf(log + es, id) == EventsOf(log, id) + if es != [] && es[0].id == id then es else []
  {
    if es == [] {
      assert log + es == log;
    } else {
      assert (log + es)[..|log + es| - 1] == log;
      assert es == [es[0]];
    }
  }

  lemma {:induction false} EventsOfConcat(es: seq<Event>, fs: seq<Event>, id: Uuid)
    ensures EventsOf(es + fs, id) == EventsOf(es, id) + EventsOf(fs, id)
  {
    if fs == [] {
      assert es + fs == es;
    } else {
      var front, last := fs[..|fs| - 1], fs[|fs| - 1];
      assert es + fs == (es + front) + [last];
      assert ((es + front) + [last])[..|es + front|] == es + front;
      EventsOfConcat(es, front, id);
    }
  }

  /** A history stays malformed whatever is added to it. */
  lemma PrefixOfWellFormed(es: seq<Event>, more: seq<Event>)
    requires WellFormed(es + more)
    ensures WellFormed(es)
  {
    assert forall i :: 0 <= i < |es| ==> (es + more)[..i] == es[..i] && (es + more)[i] == es[i];
  }

  /** One more event after a well-formed history: exactly when the guard of its operation would have passed. */
  lemma WellFormedAppend(es: seq<Event>, e: Event)
    requires WellFormed(es)
    requires e.PurchaseReversed? ==> e.prior == Folded(es)
    ensures WellFormed(es + [e]) <==> (if e.PurchaseReversed? then Folded(es) != Reversed else Folded(es) == Pending)
    ensures e.PurchaseReversed? ==> (WellFormed(es + [e]) <==> EnforceReversible(Folded(es)).None?)
    ensures !e.PurchaseReversed? ==> (WellFormed(es + [e]) <==> EnforcePending(Folded(es)).None?)
  {
    assert (es + [e])[..|es|] == es;
    assert forall i :: 0 <= i < |es| ==> (es + [e])[..i] == es[..i];
  }

  /** A purchase whose events, row and mark are the same in both states. */
  lemma SameHistory(s: State, s': State, id: Uuid)
    requires LogAgrees(s, id) && EventsOf(s'.log, id) == EventsOf(s.log, id)
    requires id in s'.books.purchases <==> id in s.books.purchases
    requires id in s.books.purchases ==> s'.books.purchases[id].status == s.books.purchases[id].status
    requires id in s'.clawed <==> id in s.clawed
    ensures LogAgrees(s', id)
  {
  }

  function StatusAfter(op: Op): Status {
    match op
    case Ingest(_, _) => Pending
    case ConfirmByJob(_) => Confirmed
    case ConfirmByAdmin(_) => Confirmed
    case RejectByJob(_) => Rejected
    case ReverseByAdmin(_) => Reversed
  }

  lemma WriteFramesPurchases(b: Books, op: Op, id: Uuid)
    requires !op.Ingest? ==> op.id in b.purchases
    ensures id != op.id ==> (id in Write(b, op).purchases <==> id in b.purchases)
    ensures id != op.id && id in b.purchases ==> Write(b, op).purchases[id] == b.purchases[id]
    ensures op.id in Write(b, op).purchases
    ensures Write(b, op).purchases[op.id].status == StatusAfter(op)
  {
  }

  lemma PublishedIsOwn(b: Books, op: Op)
    requires !op.Ingest? ==> op.id in b.purchases
    ensures Published(b, op) == [] <==> op.Ingest?
    ensures !op.Ingest? ==> |Published(b, op)| == 1 && Published(b, op)[0].id == op.id
    ensures !op.Ingest? ==> Folded(Published(b, op)) == StatusAfter(op)
    ensures !op.Ingest? ==> (Published(b, op)[0].PurchaseReversed? <==> op.ReverseByAdmin?)
    ensures op.ReverseByAdmin? ==> Published(b, op)[0].prior == b.purchases[op.id].status
  {
  }

  lemma CommitKeepsOtherLog(s: State, op: Op, id: Uuid)
    requires !op.Ingest? ==> op.id in s.books.purchases
    requires id != op.id && LogAgrees(s, id)
    ensures LogAgrees(Commit(s, op), id)
  {
    PublishedIsOwn(s.books, op);
    EventsOfAppend(s.log, Published(s.books, op), id);
    WriteFramesPurchases(s.books, op, id);
    SameHistory(s, Commit(s, op), id);
  }

  /** A purchase whose history has grown by one event. */
  lemma LongerHistory(s: State, s': State, id: Uuid, e: Event)
    requires EventsOf(s'.log, id) == EventsOf(s.log, id) + [e] && WellFormed(EventsOf(s.log, id) + [e])
    requires id in s'.books.purchases && s'.books.purchases[id].status == Folded([e])
    requires id in s'.clawed <==> e == PurchaseReversed(id, Rejected)
    ensures LogAgrees(s', id)
  {
    assert (EventsOf(s.log, id) + [e])[|EventsOf(s.log, id)|] == e;
  }

  /** An event whose operation passes its guard continues a history that agrees with the stored status. */
  lemma GuardedEventFollows(s: State, op: Op, e: Event)
    requires !op.Ingest? && Guard(s.books, op).None? && LogAgrees(s, op.id)
    requires e.PurchaseReversed? <==> op.ReverseByAdmin?
    requires op.ReverseByAdmin? ==> e.prior == s.books.purchases[op.id].status
    ensures WellFormed(EventsOf(s.log, op.id) + [e])
  {
    WellFormedAppend(EventsOf(s.log, op.id), e);
  }

  lemma CommitLengthensHistory(s: State, op: Op, e: Event)
    requires !op.Ingest? && Guard(s.books, op).None? && LogAgrees(s, op.id)
    requires Published(s.books, op) == [e] && e.id == op.id && Folded([e]) == StatusAfter(op)
    requires e.PurchaseReversed? <==> op.ReverseByAdmin?
    requires op.ReverseByAdmin? ==> e.prior == s.books.purchases[op.id].status
    ensures LogAgrees(Commit(s, op), op.id)
  {
    EventsOfAppend(s.log, [e], op.id);
    WriteFramesPurchases(s.books, op, op.id);
    GuardedEventFollows(s, op, e);
    LongerHistory(s, Commit(s, op), op.id, e);
  }

  lemma IngestStartsHistory(s: State, op: Op)
    requires op.Ingest? && Guard(s.books, op).None? && LogAgrees(s, op.id)
    ensures LogAgrees(Commit(s, op), op.id)
  {
    EventsOfAppend(s.log, [], op.id);
  }

  lemma CommitKeepsOwnLog(s: State, op: Op)
    requires Guard(s.books, op).None? && LogAgrees(s, op.id)
    ensures LogAgrees(Commit(s, op), op.id)
  {
    if op.Ingest? {
      IngestStartsHistory(s, op);
    } else {
      PublishedIsOwn(s.books, op);
      CommitLengthensHistory(s, op, Published(s.books, op)[0]);
    }
  }

  // ----- every operation

  lemma CommitKeepsThreeBooks(s: State, op: Op)
    requires ThreeBooks(s.books) && Guard(s.books, op).None?
    ensures ThreeBooks(Commit(s, op).books)
  {
    if Settles(op) {
      SettlementRows(s, op);
    } else if op.ReverseByAdmin? {
      ReversalRows(s, op.id);
    }
  }

  /** A write gives new external ids to new rows only. */
  lemma WriteKeepsExternalIds(b: Books, op: Op)
    requires !op.Ingest? ==> op.id in b.purchases
    ensures var ps' := Write(b, op).purchases;
            && (forall id :: id in b.purchases && (id == op.id ==> !op.Ingest?) ==>
                  id in ps' && ps'[id].externalId == b.purchases[id].externalId)
            && (forall id :: id in ps' && id !in b.purchases ==> op.Ingest? && id == op.id)
            && (op.Ingest? ==> ps'[op.id].externalId == op.request.externalId)
  {
  }

  lemma CommitKeepsExternalIds(s: State, op: Op)
    requires ExternalIdsUnique(s.books) && Guard(s.books, op).None?
    ensures ExternalIdsUnique(Commit(s, op).books)
  {
    WriteKeepsExternalIds(s.books, op);
    assert op.Ingest? ==> !ExternalIdTaken(s.books, op.request.externalId);
  }

  lemma CommitKeepsClawed(s: State, op: Op)
    requires ClawedLaw(s) && Guard(s.books, op).None?
    ensures ClawedLaw(Commit(s, op))
  {
    forall id | id in Commit(s, op).clawed
      ensures id in Write(s.books, op).purchases && Write(s.books, op).purchases[id].status == Reversed
    {
      WriteFramesPurchases(s.books, op, id);
    }
  }

  lemma CommitKeepsBalance(s: State, op: Op, u: Uuid)
    requires ThreeBooks(s.books) && Balanced(s, u) && ClawedLaw(s) && Guard(s.books, op).None?
    ensures Balanced(Commit(s, op), u)
  {
    match op {
      case Ingest(id, req) => IngestKeepsBalance(s, id, req, u);
      case ReverseByAdmin(id) => ReversalKeepsBalance(s, id, u);
      case _ => SettlementBalance(s, op, u);
    }
  }

  /** The tables stay sound whatever has become of the events. */
  lemma CommitKeepsSound(s: State, op: Op)
    requires Sound(s) && Guard(s.books, op).None?
    ensures Sound(Commit(s, op))
  {
    CommitKeepsThreeBooks(s, op);
    CommitKeepsExternalIds(s, op);
    CommitKeepsClawed(s, op);
    forall u
      ensures Balanced(Commit(s, op), u)
    {
      assert Balanced(s, u);
      CommitKeepsBalance(s, op, u);
    }
  }

  lemma CommitKeepsConsistent(s: State, op: Op)
    requires Consistent(s) && Guard(s.books, op).None?
    ensures Consistent(Commit(s, op))
  {
    CommitKeepsSound(s, op);
    forall id
      ensures LogAgrees(Commit(s, op), id)
    {
      assert LogAgrees(s, id);
      if id == op.id {
        CommitKeepsOwnLog(s, op);
      } else {
        CommitKeepsOtherLog(s, op, id);
      }
    }
  }

  // ----- the settlement of a purchase that is no longer pending

  lemma SettledTwiceIsMalformed(s: State, op: Op)
    requires EventLogLaw(s) && Settles(op) && op.id in s.books.purchases && s.books.purchases[op.id].status != Pending
    ensures !WellFormed(EventsOf(Commit(s, op).log, op.id))
  {
    assert LogAgrees(s, op.id);
    PublishedIsOwn(s.books, op);
    EventsOfAppend(s.log, Published(s.books, op), op.id);
    WellFormedAppend(EventsOf(s.log, op.id), Published(s.books, op)[0]);
    assert Published(s.books, op) == [Published(s.books, op)[0]];
  }

  lemma SettlementKeepsLedgerLawIff(s: State, op: Op)
    requires Sound(s) && Settles(op) && op.id in s.books.purchases
    ensures var p := s.books.purchases[op.id];
            LedgerLaw(Commit(s, op)) <==> (p.status == Pending || p.cashback == 0)
  {
    var p := s.books.purchases[op.id];
    forall u
      ensures Balanced(Commit(s, op), u) <==> (p.userId != u || p.status == Pending || p.cashback == 0)
    {
      assert Balanced(s, u);
      SettlementBalance(s, op, u);
    }
    if LedgerLaw(Commit(s, op)) {
      assert Balanced(Commit(s, op), p.userId);
    }
  }

  /** A settlement that does not look at the status again keeps all the laws exactly when the purchase is pending. */
  lemma SettlementKeepsConsistentIff(s: State, op: Op)
    requires Consistent(s) && Settles(op) && op.id in s.books.purchases
    ensures Consistent(Commit(s, op)) <==> s.books.purchases[op.id].status == Pending
  {
    if s.books.purchases[op.id].status == Pending {
      CommitKeepsConsistent(s, op);
    } else {
      SettledTwiceIsMalformed(s, op);
      assert !LogAgrees(Commit(s, op), op.id);
    }
  }

  // ----- runs

  lemma ApplyKeepsConsistent(s: State, op: Op)
    requires Consistent(s)
    ensures Consistent(Apply(s, op))
  {
    if Guard(s.books, op).None? {
      CommitKeepsConsistent(s, op);
    }
  }

  /** The tables stay sound over every run, even one whose earlier events were lost. */
  lemma {:induction false} RunKeepsSound(s: State, ops: seq<Op>)
    requires Sound(s)
    ensures Sound(Run(s, ops))
    decreases |ops|
  {
    if ops == [] {
    } else {
      if Guard(s.books, ops[0]).None? {
        CommitKeepsSound(s, ops[0]);
      }
      RunKeepsSound(Apply(s, ops[0]), ops[1..]);
    }
  }

  lemma InitialIsConsistent()
    ensures Consistent(INITIAL)
  {
    forall u
      ensures Balanced(INITIAL, u)
    {
      NothingOwed(INITIAL.books.purchases, u, Pending);
      NothingOwed(INITIAL.books.purchases, u, Confirmed);
      NothingClawed(INITIAL.books.transactions, INITIAL.clawed, u);
    }
  }

  /** The ledger, three-books and event-log laws hold after every run of the operations. */
  lemma {:induction false} RunKeepsConsistent(s: State, ops: seq<Op>)
    requires Consistent(s)
    ensures Consistent(Run(s, ops))
    decreases |ops|
  {
    if ops == [] {
    } else {
      ApplyKeepsConsistent(s, ops[0]);
      RunKeepsConsistent(Apply(s, ops[0]), ops[1..]);
    }
  }
}
