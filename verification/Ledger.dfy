/**
 * The cashback ledger: the purchases, cashback_transactions and wallets tables, the four operations that
 * move money across them, and the laws that tie the tables together in every reachable state.
 */
module Ledger {
  import opened Wrappers
  import opened Sums
  import Cashback
  import Wallets

  // ----- tables

  datatype Status = Pending | Confirmed | Rejected | Reversed

  datatype TxStatus = TxPending | TxAvailable | TxReversed

  datatype ExternalId = ExternalId(text: string)

  datatype Purchase = Purchase(
    externalId: ExternalId, userId: Uuid, merchantId: Uuid, amount: nat, cashback: nat, status: Status,
    createdAt: int)

  datatype Transaction = Transaction(userId: Uuid, amount: nat, status: TxStatus)

  /** Purchases by id, transactions by the (unique) id of their purchase, wallets by user. */
  datatype Books = Books(
    purchases: map<Uuid, Purchase>, transactions: map<Uuid, Transaction>, wallets: Wallets.Table)

  // ----- statements

  function InsertPurchase(b: Books, id: Uuid, p: Purchase): Books {
    b.(purchases := b.purchases[id := p])
  }

  function InsertTransaction(b: Books, id: Uuid, userId: Uuid, amount: nat): Books {
    b.(transactions := b.transactions[id := Transaction(userId, amount, TxPending)])
  }

  function SetTransactionStatus(b: Books, id: Uuid, status: TxStatus): Books {
    if id in b.transactions then b.(transactions := b.transactions[id := b.transactions[id].(status := status)])
    else b
  }

  function SetStatus(b: Books, id: Uuid, status: Status): Books {
    if id in b.purchases then b.(purchases := b.purchases[id := b.purchases[id].(status := status)]) else b
  }

  function ReverseRow(b: Books, id: Uuid): Books {
    if id in b.purchases then
      b.(purchases := b.purchases[id := b.purchases[id].(status := Reversed, cashback := 0)])
    else b
  }

  function ChangeWallet(b: Books, c: Wallets.Change): Books {
    b.(wallets := Wallets.Apply(b.wallets, c))
  }

  // ----- policies

  datatype Error =
    | OwnershipViolation | DuplicatePurchase | UnsupportedCurrency
    | UserNotFound | UserInactive | MerchantNotFound | MerchantInactive | OfferNotAvailable
    | PrimaryKeyTaken | PurchaseNotFound | PurchaseAlreadyReversed | PurchaseNotPending(status: Status)
    | ConnectionLost | VerifierFailed | SubscriberFailed

  /** An ingestion request, what the user, merchant and offer lookups return for it, and the time of its insert. */
  datatype Request = Request(
    caller: Uuid, externalId: ExternalId, userId: Uuid, merchantId: Uuid, amount: nat, currency: string,
    userActive: Option<bool>, merchantActive: Option<bool>, offer: Option<Cashback.Offer>, now: int)

  /** The only supported currency, in any mix of cases. */
  predicate IsEur(currency: string) {
    && |currency| == 3
    && currency[0] in "eE" && currency[1] in "uU" && currency[2] in "rR"
  }

  predicate ExternalIdTaken(b: Books, externalId: ExternalId) {
    exists id :: id in b.purchases && b.purchases[id].externalId == externalId
  }

  /** The policies that ingestion applies after its duplicate check, in their order. */
  function EnforceIngestable(req: Request): Option<Error> {
    if !IsEur(req.currency) then Some(UnsupportedCurrency)
    else if req.userActive.None? then Some(UserNotFound)
    else if !req.userActive.value then Some(UserInactive)
    else if req.merchantActive.None? then Some(MerchantNotFound)
    else if !req.merchantActive.value then Some(MerchantInactive)
    else if req.offer.None? then Some(OfferNotAvailable)
    else None
  }

  function EnforceReversible(status: Status): Option<Error> {
    if status == Reversed then Some(PurchaseAlreadyReversed) else None
  }

  function EnforcePending(status: Status): Option<Error> {
    if status != Pending then Some(PurchaseNotPending(status)) else None
  }

  // ----- operations

  datatype Op =
    | Ingest(id: Uuid, request: Request)
    | ConfirmByJob(id: Uuid)
    | ConfirmByAdmin(id: Uuid)
    | RejectByJob(id: Uuid)
    | ReverseByAdmin(id: Uuid)

  /** The exception the operation raises before writing anything, if any. */
  function Guard(b: Books, op: Op): Option<Error> {
    match op
    case Ingest(id, req) =>
      if req.caller != req.userId then Some(OwnershipViolation)
      else if ExternalIdTaken(b, req.externalId) then Some(DuplicatePurchase)
      else if EnforceIngestable(req).Some? then EnforceIngestable(req)
      else if id in b.purchases || id in b.transactions then Some(PrimaryKeyTaken)
      else None
    case ReverseByAdmin(id) =>
      if id !in b.purchases then Some(PurchaseNotFound) else EnforceReversible(b.purchases[id].status)
    case _ =>
      if op.id !in b.purchases then Some(PurchaseNotFound) else EnforcePending(b.purchases[op.id].status)
  }

  function CashbackOf(req: Request): nat {
    if req.offer.Some? then Cashback.Calculate(req.offer.value, req.amount) else 0
  }

  function NewPurchase(req: Request): Purchase {
    Purchase(req.externalId, req.userId, req.merchantId, req.amount, CashbackOf(req), Pending, req.now)
  }

  function Ingested(b: Books, id: Uuid, req: Request): Books {
    var b1 := InsertPurchase(b, id, NewPurchase(req));
    var b2 := InsertTransaction(b1, id, req.userId, CashbackOf(req));
    ChangeWallet(b2, Wallets.CreditPending(req.userId, CashbackOf(req)))
  }

  /** The confirmation shared by the job and the admin; without cashback only the status changes. */
  function ConfirmedBooks(b: Books, id: Uuid): Books
    requires id in b.purchases
  {
    var p := b.purchases[id];
    var b1 := SetStatus(b, id, Confirmed);
    if p.cashback > 0 then
      ChangeWallet(SetTransactionStatus(b1, id, TxAvailable), Wallets.ConfirmPending(p.userId, p.cashback))
    else b1
  }

  function RejectedBooks(b: Books, id: Uuid): Books
    requires id in b.purchases
  {
    var p := b.purchases[id];
    var b1 := SetStatus(b, id, Rejected);
    if p.cashback > 0 then
      ChangeWallet(SetTransactionStatus(b1, id, TxReversed), Wallets.ReversePending(p.userId, p.cashback))
    else b1
  }

  /** Every status but pending takes the `else` branch and debits the available balance. */
  function ReversedBooks(b: Books, id: Uuid): Books
    requires id in b.purchases
  {
    var p := b.purchases[id];
    var b1 := SetTransactionStatus(b, id, TxReversed);
    var b2 := ChangeWallet(b1,
      if p.status == Pending then Wallets.ReversePending(p.userId, p.cashback)
      else Wallets.ReverseAvailable(p.userId, p.cashback));
    ReverseRow(b2, id)
  }

  function Write(b: Books, op: Op): Books
    requires !op.Ingest? ==> op.id in b.purchases
  {
    match op
    case Ingest(id, req) => Ingested(b, id, req)
    case ConfirmByJob(id) => ConfirmedBooks(b, id)
    case ConfirmByAdmin(id) => ConfirmedBooks(b, id)
    case RejectByJob(id) => RejectedBooks(b, id)
    case ReverseByAdmin(id) => ReversedBooks(b, id)
  }

  // ----- events

  datatype Event =
    | PurchaseConfirmed(id: Uuid)
    | PurchaseConfirmedByAdmin(id: Uuid)
    | PurchaseRejected(id: Uuid)
    | PurchaseReversed(id: Uuid, prior: Status)

  function Published(b: Books, op: Op): seq<Event>
    requires !op.Ingest? ==> op.id in b.purchases
  {
    match op
    case Ingest(_, _) => []
    case ConfirmByJob(id) => [PurchaseConfirmed(id)]
    case ConfirmByAdmin(id) => [PurchaseConfirmedByAdmin(id)]
    case RejectByJob(id) => [PurchaseRejected(id)]
    case ReverseByAdmin(id) => [PurchaseReversed(id, b.purchases[id].status)]
  }

  // ----- runs

  /**
   * The committed tables, the events that the commits so far were followed by, and the purchases that were
   * reversed while rejected: the reversal policy lets those through although the exception lists only pending
   * and confirmed.
   */
  datatype State = State(books: Books, clawed: set<Uuid>, log: seq<Event>)

  const INITIAL := State(Books(map[], map[], map[]), {}, [])

  /** The operation's transaction without its guard: what its commit and publish make of the state. */
  function Commit(s: State, op: Op): State
    requires !op.Ingest? ==> op.id in s.books.purchases
  {
    State(Write(s.books, op),
          if op.ReverseByAdmin? && s.books.purchases[op.id].status == Rejected then s.clawed + {op.id} else s.clawed,
          s.log + Published(s.books, op))
  }

  function Apply(s: State, op: Op): State {
    if Guard(s.books, op).Some? then s else Commit(s, op)
  }

  function Run(s: State, ops: seq<Op>): State
    decreases |ops|
  {
    if ops == [] then s else Run(Apply(s, ops[0]), ops[1..])
  }

  // ----- the laws

  ghost function Amount(p: Purchase, u: Uuid, st: Status): int {
    if p.userId == u && p.status == st then p.cashback else 0
  }

  /** The cashback of the user's purchases in a status. */
  ghost function Owed(ps: map<Uuid, Purchase>, u: Uuid, st: Status): int {
    Sum(map id | id in ps :: Amount(ps[id], u, st))
  }

  ghost function ClawedAmount(t: Transaction, clawed: bool, u: Uuid): int {
    if clawed && t.userId == u then t.amount else 0
  }

  /** The transaction amounts of the user's purchases that were reversed while rejected. */
  ghost function ClawedBack(ts: map<Uuid, Transaction>, clawed: set<Uuid>, u: Uuid): int {
    Sum(map id | id in ts :: ClawedAmount(ts[id], id in clawed, u))
  }

  /** A user's wallet is what the purchases say, less what reversing rejected purchases took from it. */
  ghost predicate Balanced(s: State, u: Uuid) {
    Wallets.Balance(s.books.wallets, u) == Wallets.Wallet(
      Owed(s.books.purchases, u, Pending),
      Owed(s.books.purchases, u, Confirmed) - ClawedBack(s.books.transactions, s.clawed, u),
      0)
  }

  ghost predicate LedgerLaw(s: State) {
    forall u :: Balanced(s, u)
  }

  /** The status of a transaction is a function of the purchase's; without cashback it may lag at pending. */
  function ExpectedTxStatus(st: Status, positive: bool): TxStatus {
    match st
    case Pending => TxPending
    case Confirmed => if positive then TxAvailable else TxPending
    case Rejected => if positive then TxReversed else TxPending
    case Reversed => TxReversed
  }

  ghost predicate RowsAgree(p: Purchase, t: Transaction) {
    && t.userId == p.userId
    && p.cashback == (if p.status == Reversed then 0 else t.amount)
    && t.status == ExpectedTxStatus(p.status, t.amount > 0)
  }

  /** Every purchase has exactly one transaction, which agrees with it. */
  ghost predicate ThreeBooks(b: Books) {
    && b.transactions.Keys == b.purchases.Keys
    && (forall id :: id in b.purchases ==> RowsAgree(b.purchases[id], b.transactions[id]))
    && (forall id :: id in b.purchases ==> b.purchases[id].userId in b.wallets)
  }

  ghost predicate ExternalIdsUnique(b: Books) {
    forall i, j :: i in b.purchases && j in b.purchases && b.purchases[i].externalId == b.purchases[j].externalId
        ==> i == j
  }

  /** The events of one purchase, in order. */
  function EventsOf(log: seq<Event>, id: Uuid): seq<Event> {
    if log == [] then []
    else
      var e := log[|log| - 1];
      EventsOf(log[..|log| - 1], id) + if e.id == id then [e] else []
  }

  /** The status that a purchase's events add up to, starting from pending. */
  function Folded(es: seq<Event>): Status {
    if es == [] then Pending
    else
      match es[|es| - 1]
      case PurchaseConfirmed(_) => Confirmed
      case PurchaseConfirmedByAdmin(_) => Confirmed
      case PurchaseRejected(_) => Rejected
      case PurchaseReversed(_, _) => Reversed
  }

  /** At most one settlement, then at most one reversal, which carries the status folded just before it. */
  ghost predicate WellFormed(es: seq<Event>) {
    && |es| <= 2
    && (|es| == 2 ==> !es[0].PurchaseReversed? && es[1].PurchaseReversed?)
    && (forall i :: 0 <= i < |es| && es[i].PurchaseReversed? ==> es[i].prior == Folded(es[..i]))
  }

  /** What the log says of one purchase: its history is well formed and folds to the stored status. */
  ghost predicate LogAgrees(s: State, id: Uuid) {
    var es := EventsOf(s.log, id);
    && WellFormed(es)
    && (id in s.books.purchases ==> Folded(es) == s.books.purchases[id].status)
    && (id !in s.books.purchases ==> es == [])
    && (id in s.clawed <==> es != [] && es[|es| - 1] == PurchaseReversed(id, Rejected))
  }

  ghost predicate EventLogLaw(s: State) {
    forall id :: LogAgrees(s, id)
  }

  /** Only reversed purchases were reversed while rejected. */
  ghost predicate ClawedLaw(s: State) {
    forall id :: id in s.clawed ==> id in s.books.purchases && s.books.purchases[id].status == Reversed
  }

  /** What the committed tables keep, whatever becomes of the events. */
  ghost predicate Sound(s: State) {
    ThreeBooks(s.books) && ExternalIdsUnique(s.books) && LedgerLaw(s) && ClawedLaw(s)
  }

  ghost predicate Consistent(s: State) {
    Sound(s) && EventLogLaw(s)
  }
}
