/** Which operations are refused, with which error, and what an accepted one does to rows, balances and events. */
module Operations {
  import opened Wrappers
  import opened Ledger
  import opened LedgerLaws
  import Cashback
  import Wallets

  // ----- the currency

  function ToUpper(c: char): char {
    if 'a' <= c <= 'z' then (c as int - 32) as char else c
  }

  function UpperCase(s: string): string {
    seq(|s|, i requires 0 <= i < |s| => ToUpper(s[i]))
  }

  lemma EuroInAnyCase(currency: string)
    ensures IsEur(currency) <==> UpperCase(currency) == "EUR"
  {
    if |currency| == 3 {
      assert UpperCase(currency) == [ToUpper(currency[0]), ToUpper(currency[1]), ToUpper(currency[2])];
    }
  }

  // ----- refusals

  /** Some purchase has the external id already. */
  ghost predicate Duplicates(b: Books, req: Request) {
    exists i :: i in b.purchases && b.purchases[i].externalId == req.externalId
  }

  /** An ingestion is accepted exactly when every lookup, policy and unique key allows it. */
  lemma IngestionIsAcceptedIff(b: Books, id: Uuid, req: Request)
    ensures Guard(b, Ingest(id, req)).None?
       <==> && req.caller == req.userId && !Duplicates(b, req) && UpperCase(req.currency) == "EUR"
            && req.userActive == Some(true) && req.merchantActive == Some(true) && req.offer.Some?
            && id !in b.purchases && id !in b.transactions
  {
    EuroInAnyCase(req.currency);
  }

  /** A refused ingestion raises the error of its first failing check, in the order of the service. */
  lemma IngestionIsRefused(b: Books, id: Uuid, req: Request)
    ensures var r := Guard(b, Ingest(id, req));
            var own, new' := req.caller == req.userId, !Duplicates(b, req);
            var euro, user := UpperCase(req.currency) == "EUR", req.userActive == Some(true);
            var merchant, offer := req.merchantActive == Some(true), req.offer.Some?;
            && (r == Some(OwnershipViolation) <==> !own)
            && (r == Some(DuplicatePurchase) <==> own && !new')
            && (r == Some(UnsupportedCurrency) <==> own && new' && !euro)
            && (r == Some(UserNotFound) <==> own && new' && euro && req.userActive == None)
            && (r == Some(UserInactive) <==> own && new' && euro && req.userActive == Some(false))
            && (r == Some(MerchantNotFound) <==> own && new' && euro && user && req.merchantActive == None)
            && (r == Some(MerchantInactive) <==> own && new' && euro && user && req.merchantActive == Some(false))
            && (r == Some(OfferNotAvailable) <==> own && new' && euro && user && merchant && !offer)
            && (r == Some(PrimaryKeyTaken)
                <==> own && new' && euro && user && merchant && offer && (id in b.purchases || id in b.transactions))
  {
    EuroInAnyCase(req.currency);
  }

  /** Only a purchase that exists and is not reversed can be reversed. */
  lemma ReversalIsAcceptedIff(b: Books, id: Uuid)
    ensures Guard(b, ReverseByAdmin(id)).None? <==> id in b.purchases && b.purchases[id].status != Reversed
    ensures Guard(b, ReverseByAdmin(id)) == Some(PurchaseNotFound) <==> id !in b.purchases
    ensures Guard(b, ReverseByAdmin(id)) == Some(PurchaseAlreadyReversed)
       <==> id in b.purchases && b.purchases[id].status == Reversed
  {
  }

  /** Only a purchase that exists and is pending can be settled; any other is refused with its status. */
  lemma SettlementIsAcceptedIff(b: Books, id: Uuid, op: Op)
    requires op == ConfirmByAdmin(id) || op == ConfirmByJob(id) || op == RejectByJob(id)
    ensures Guard(b, op).None? <==> id in b.purchases && b.purchases[id].status == Pending
    ensures Guard(b, op) == Some(PurchaseNotFound) <==> id !in b.purchases
    ensures forall st ::
      (Guard(b, op) == Some(PurchaseNotPending(st))
       <==> id in b.purchases && b.purchases[id].status == st && st != Pending)
  {
  }

  lemma RefusedChangesNothing(s: State, op: Op)
    requires Guard(s.books, op).Some?
    ensures Apply(s, op) == s
  {
  }

  // ----- effects

  /** Nothing but the one purchase, its transaction and its user's wallet differs. */
  ghost predicate OnlyTouches(b: Books, b': Books, id: Uuid, userId: Uuid) {
    && (forall i :: i != id ==> (i in b'.purchases <==> i in b.purchases))
    && (forall i :: i != id && i in b.purchases ==> b'.purchases[i] == b.purchases[i])
    && (forall i :: i != id ==> (i in b'.transactions <==> i in b.transactions))
    && (forall i :: i != id && i in b.transactions ==> b'.transactions[i] == b.transactions[i])
    && (forall u :: u != userId ==> (u in b'.wallets <==> u in b.wallets))
    && (forall u :: u != userId && u in b.wallets ==> b'.wallets[u] == b.wallets[u])
  }

  /** How a user's three balances have moved. */
  ghost predicate Moved(b: Books, b': Books, userId: Uuid, pending: int, available: int) {
    var w, w' := Wallets.Balance(b.wallets, userId), Wallets.Balance(b'.wallets, userId);
    w'.pending == w.pending + pending && w'.available == w.available + available && w'.paid == w.paid
  }

  /** `cents` is what the offer pays for the amount: the nearest cent, or as near as the context's digits allow. */
  ghost predicate Pays(offer: Cashback.Offer, amount: nat, cents: nat) {
    match offer.fixedAmount
    case Some(fixed) => Cashback.IsNearestEven(fixed.coefficient * 100, Cashback.Pow10(fixed.scale), cents)
    case None =>
      var product, den := amount * offer.percentage.coefficient, 100 * Cashback.Pow10(offer.percentage.scale);
      var unit := Cashback.Pow10(Cashback.Excess(product));
      && (Cashback.Digits(product) <= 28 ==> Cashback.IsNearestEven(product, den, cents))
      && 0 - den - unit <= Cashback.Gap(product, den, cents) <= den + unit
  }

  lemma CalculatedPays(offer: Cashback.Offer, amount: nat)
    ensures Pays(offer, amount, Cashback.Calculate(offer, amount))
  {
    if offer.fixedAmount.Some? {
      Cashback.FixedCashbackIsNearest(offer, amount, Cashback.Calculate(offer, amount));
    } else {
      Cashback.PercentageErrorIsBounded(offer, amount);
      if Cashback.Exact(offer, amount) {
        Cashback.PercentageCashbackIsNearest(offer, amount, Cashback.Calculate(offer, amount));
      }
    }
  }

  /** An accepted ingestion stores one pending purchase and one pending transaction, and credits what the offer pays. */
  lemma IngestionStores(s: State, id: Uuid, req: Request)
    requires Guard(s.books, Ingest(id, req)).None?
    ensures var s' := Apply(s, Ingest(id, req));
            && id in s'.books.purchases && id in s'.books.transactions && req.offer.Some?
            && var p, t := s'.books.purchases[id], s'.books.transactions[id];
               && p.externalId == req.externalId && p.userId == req.userId && p.merchantId == req.merchantId
               && p.amount == req.amount && p.status == Pending && p.createdAt == req.now
               && t.userId == req.userId && t.amount == p.cashback && t.status == TxPending
               && Pays(req.offer.value, req.amount, p.cashback)
               && Moved(s.books, s'.books, req.userId, p.cashback, 0)
    ensures var s' := Apply(s, Ingest(id, req));
            && OnlyTouches(s.books, s'.books, id, req.userId) && req.userId in s'.books.wallets
            && s'.log == s.log && s'.clawed == s.clawed
  {
    CalculatedPays(req.offer.value, req.amount);
  }

  /** A confirmation changes the status alone, and with cashback makes it available. */
  lemma ConfirmationStores(s: State, op: Op, id: Uuid)
    requires op == ConfirmByAdmin(id) || op == ConfirmByJob(id)
    requires ThreeBooks(s.books) && Guard(s.books, op).None?
    ensures var b, b' := s.books, Apply(s, op).books;
            var p, t := b.purchases[id], b.transactions[id];
            && id in b'.purchases && b'.purchases[id] == p.(status := Confirmed)
            && id in b'.transactions && b'.transactions[id] == (if p.cashback > 0 then t.(status := TxAvailable) else t)
            && Moved(b, b', p.userId, 0 - p.cashback, p.cashback) && OnlyTouches(b, b', id, p.userId)
    ensures Apply(s, op).clawed == s.clawed
    ensures Apply(s, op).log
         == s.log + [if op == ConfirmByAdmin(id) then PurchaseConfirmedByAdmin(id) else PurchaseConfirmed(id)]
  {
    SettlementRows(s, op);
  }

  /** A rejection changes the status alone, and with cashback takes it out of the pending balance. */
  lemma RejectionStores(s: State, id: Uuid)
    requires ThreeBooks(s.books) && Guard(s.books, RejectByJob(id)).None?
    ensures var b, b' := s.books, Apply(s, RejectByJob(id)).books;
            var p, t := b.purchases[id], b.transactions[id];
            && id in b'.purchases && b'.purchases[id] == p.(status := Rejected)
            && id in b'.transactions && b'.transactions[id] == (if p.cashback > 0 then t.(status := TxReversed) else t)
            && Moved(b, b', p.userId, 0 - p.cashback, 0) && OnlyTouches(b, b', id, p.userId)
    ensures Apply(s, RejectByJob(id)).clawed == s.clawed
    ensures Apply(s, RejectByJob(id)).log == s.log + [PurchaseRejected(id)]
  {
    SettlementRows(s, RejectByJob(id));
  }

  /**
   * A reversal zeroes the purchase and reverses its transaction. The cashback comes out of the pending balance
   * for a pending purchase, and out of the available balance for a confirmed or rejected one.
   */
  lemma ReversalStores(s: State, id: Uuid)
    requires ThreeBooks(s.books) && Guard(s.books, ReverseByAdmin(id)).None?
    ensures var b, b' := s.books, Apply(s, ReverseByAdmin(id)).books;
            var p, t := b.purchases[id], b.transactions[id];
            && id in b'.purchases && b'.purchases[id] == p.(status := Reversed, cashback := 0)
            && id in b'.transactions && b'.transactions[id] == t.(status := TxReversed)
            && OnlyTouches(b, b', id, p.userId)
            && (p.status == Pending ==> Moved(b, b', p.userId, 0 - p.cashback, 0))
            && (p.status == Confirmed || p.status == Rejected ==> Moved(b, b', p.userId, 0, 0 - p.cashback))
    ensures var p, s' := s.books.purchases[id], Apply(s, ReverseByAdmin(id));
            && s'.log == s.log + [PurchaseReversed(id, p.status)]
            && s'.clawed == if p.status == Rejected then s.clawed + {id} else s.clawed
  {
    ReversalRows(s, id);
  }
}
