/** The purchase service and the verification job's outcome processor: ordered writes, one commit, one event. */
module Services {
  import opened Wrappers
  import opened Ledger
  import opened LedgerLaws
  import opened Store
  import Cashback

  /** The operation has been committed, but its event was not handled. */
  twostate predicate Unheard(s: Session, op: Op)
    requires old(!op.Ingest? ==> op.id in s.db.committed.purchases)
    reads s, s.db
  {
    && !op.Ingest? && !s.Heard()
    && s.db.Current() == Commit(old(s.db.Current()), op).(log := old(s.db.published))
  }

  /**
   * What a call did to the database: it took effect whole, or raised and left everything committed as it
   * was, or committed and then raised because a subscriber did. Before the commit it raises its guard's error,
   * or ConnectionLost when the connection carried fewer statements than the operation needs.
   */
  twostate predicate Served<T>(s: Session, op: Op, new r: Result<T, Error>, statements: nat)
    reads s, s.db
  {
    match r
    case Ok(_) =>
      Guard(old(s.db.committed), op).None? && s.db.Current() == Commit(old(s.db.Current()), op)
    case Err(e) =>
      if e == SubscriberFailed then Guard(old(s.db.committed), op).None? && Unheard(s, op)
      else
        && s.db.Current() == old(s.db.Current())
        && (Guard(old(s.db.committed), op) == Some(e) || (e == ConnectionLost && old(s.budget) < statements))
  }

  /** The tables stay sound in every case, and agree with the events unless the operation's own event was lost. */
  ghost predicate Kept(before: State, after: State, lost: bool) {
    (Sound(before) ==> Sound(after)) && (Consistent(before) && !lost ==> Consistent(after))
  }

  predicate Unpublished<T>(r: Result<T, Error>) {
    r.Err? && r.error == SubscriberFailed
  }

  /** Soundness does not look at the events. */
  lemma SoundWithoutLog(s: State, log: seq<Event>)
    requires Sound(s)
    ensures Sound(s.(log := log))
  {
    forall u
      ensures Balanced(s.(log := log), u)
    {
      assert Balanced(s, u);
    }
  }

  lemma CommitKeepsLaws(s: State, op: Op)
    requires Guard(s.books, op).None?
    ensures Kept(s, Commit(s, op), false) && Kept(s, Commit(s, op).(log := s.log), true)
  {
    if Sound(s) {
      CommitKeepsSound(s, op);
      SoundWithoutLog(Commit(s, op), s.log);
    }
    if Consistent(s) {
      CommitKeepsConsistent(s, op);
    }
  }

  /** The commit of an operation's flushed writes, and then the publication of its event. */
  method CommitAndPublish(s: Session, ghost op: Op, e: Event) returns (a: Attempt<Error>)
    requires !op.Ingest? && op.id in s.db.committed.purchases
    requires s.working == Write(s.db.committed, op) && Published(s.db.committed, op) == [e]
    modifies s, s.db
    ensures a.Done? ==> s.db.Current() == Commit(old(s.db.Current()), op)
    ensures a.Raised? ==>
      if a.error == SubscriberFailed then Unheard(s, op)
      else s.db.Current() == old(s.db.Current()) && a.error == ConnectionLost && old(s.budget) == 0
  {
    a := s.Commit();
    if a.Raised? {
      return;
    }
    if e.PurchaseReversed? && e.prior == Rejected {
      s.db.clawed := s.db.clawed + {e.id};
    }
    a := s.Publish(e);
  }

  /** The currency policy, then the user, merchant and offer lookups, each followed by its policy. */
  method LookUpOffer(s: Session, req: Request) returns (r: Result<Cashback.Offer, Error>)
    modifies s`budget
    ensures match r
            case Ok(offer) => req.offer == Some(offer) && EnforceIngestable(req).None? && s.budget + 3 == old(s.budget)
            case Err(e) => EnforceIngestable(req) == Some(e) || (e == ConnectionLost && old(s.budget) < 3)
  {
    if !IsEur(req.currency) {
      return Err(UnsupportedCurrency);
    }
    :- s.Execute();
    if req.userActive.None? {
      return Err(UserNotFound);
    } else if !req.userActive.value {
      return Err(UserInactive);
    }
    :- s.Execute();
    if req.merchantActive.None? {
      return Err(MerchantNotFound);
    } else if !req.merchantActive.value {
      return Err(MerchantInactive);
    }
    :- s.Execute();
    if req.offer.None? {
      return Err(OfferNotAvailable);
    }
    return Ok(req.offer.value);
  }

  /** The purchase, its transaction and the credit: flushed, not committed. */
  method FlushIngestion(s: Session, id: Uuid, req: Request, cashback: nat) returns (a: Attempt<Error>)
    requires cashback == CashbackOf(req) && !ExternalIdTaken(s.working, req.externalId)
    modifies s
    ensures a.Done? ==>
      && id !in old(s.working).purchases && id !in old(s.working).transactions
      && s.working == Ingested(old(s.working), id, req) && s.budget + 3 == old(s.budget)
    ensures a.Raised? ==>
      || (a.error == ConnectionLost && old(s.budget) < 3)
      || (a.error == PrimaryKeyTaken && (id in old(s.working).purchases || id in old(s.working).transactions))
  {
    a := AddPurchase(s, id, NewPurchase(req));
    if a.Done? {
      a := CreateTransaction(s, id, req.userId, cashback);
    }
    if a.Done? {
      a := CreditPending(s, req.userId, cashback);
    }
  }

  method IngestPurchase(s: Session, newId: Uuid, req: Request) returns (r: Result<Uuid, Error>)
    requires s.working == s.db.committed
    modifies s, s.db
    ensures Served(s, Ingest(newId, req), r, 8)
    ensures Kept(old(s.db.Current()), s.db.Current(), Unpublished(r))
  {
    ghost var before := s.db.Current();
    if req.caller != req.userId {
      return Err(OwnershipViolation);
    }
    var existing :- GetByExternalId(s, req.externalId);
    if existing.Some? {
      return Err(DuplicatePurchase);
    }
    var offer :- LookUpOffer(s, req);
    var cashback := Cashback.Calculate(offer, req.amount);
    :- FlushIngestion(s, newId, req, cashback);
    :- s.Commit();
    CommitKeepsLaws(before, Ingest(newId, req));
    return Ok(newId);
  }

  /** The transaction, then the wallet, then the purchase: flushed, not committed. */
  method FlushReversal(s: Session, id: Uuid, userId: Uuid, amount: nat, priorStatus: Status) returns (a: Attempt<Error>)
    requires id in s.working.purchases && s.working.purchases[id].userId == userId
    requires s.working.purchases[id].cashback == amount && s.working.purchases[id].status == priorStatus
    modifies s
    ensures a.Done? ==> s.working == ReversedBooks(old(s.working), id) && s.budget + 3 == old(s.budget)
    ensures a.Raised? ==> a.error == ConnectionLost && old(s.budget) < 3
  {
    a := UpdateTransactionStatus(s, id, TxReversed);
    if a.Raised? {
      return;
    }
    if priorStatus == Pending {
      a := ReversePending(s, userId, amount);
    } else {
      a := ReverseAvailable(s, userId, amount);
    }
    if a.Raised? {
      return;
    }
    a := ReversePurchaseRow(s, id);
  }

  method ReversePurchase(s: Session, id: Uuid) returns (r: Result<(), Error>)
    requires s.working == s.db.committed
    modifies s, s.db
    ensures Served(s, ReverseByAdmin(id), r, 5)
    ensures Kept(old(s.db.Current()), s.db.Current(), Unpublished(r))
  {
    ghost var before := s.db.Current();
    var found :- GetById(s, id);
    if found.None? {
      return Err(PurchaseNotFound);
    }
    var purchase := found.value;
    if purchase.status == Reversed {
      return Err(PurchaseAlreadyReversed);
    }
    var originalCashback, priorStatus := purchase.cashback, purchase.status;
    :- FlushReversal(s, id, purchase.userId, originalCashback, priorStatus);
    CommitKeepsLaws(before, ReverseByAdmin(id));
    :- CommitAndPublish(s, ReverseByAdmin(id), PurchaseReversed(id, priorStatus));
    return Ok(());
  }

  /** The shared confirmation: flushed, not committed. */
  method ApplyPurchaseConfirmation(s: Session, id: Uuid) returns (r: Result<Purchase, Error>)
    requires id in s.working.purchases
    modifies s
    ensures r.Err? ==> r.error == ConnectionLost && old(s.budget) < 3
    ensures r.Ok? ==> s.working == ConfirmedBooks(old(s.working), id) && s.budget + 3 >= old(s.budget)
  {
    var confirmed :- UpdateStatus(s, id, Confirmed);
    var purchase := confirmed.value;
    if purchase.cashback > 0 {
      :- UpdateTransactionStatus(s, id, TxAvailable);
      :- ConfirmPending(s, purchase.userId, purchase.cashback);
    }
    return Ok(purchase);
  }

  method ConfirmPurchaseManually(s: Session, id: Uuid) returns (r: Result<(), Error>)
    requires s.working == s.db.committed
    modifies s, s.db
    ensures Served(s, ConfirmByAdmin(id), r, 5)
    ensures Kept(old(s.db.Current()), s.db.Current(), Unpublished(r))
  {
    ghost var before := s.db.Current();
    var found :- GetById(s, id);
    if found.None? {
      return Err(PurchaseNotFound);
    }
    if found.value.status != Pending {
      return Err(PurchaseNotPending(found.value.status));
    }
    var _ :- ApplyPurchaseConfirmation(s, id);
    CommitKeepsLaws(before, ConfirmByAdmin(id));
    :- CommitAndPublish(s, ConfirmByAdmin(id), PurchaseConfirmedByAdmin(id));
    return Ok(());
  }

  /**
   * What a job settlement did: it wrote over whatever the row's status was, or lost its connection and
   * left everything committed as it was, or committed and then raised because a subscriber did.
   */
  twostate predicate Settled(s: Session, op: Op, new r: Result<(), Error>)
    requires old(op.id in s.db.committed.purchases)
    reads s, s.db
  {
    match r
    case Ok(_) => s.db.Current() == Commit(old(s.db.Current()), op)
    case Err(e) =>
      if e == SubscriberFailed then Unheard(s, op)
      else s.db.Current() == old(s.db.Current()) && e == ConnectionLost && old(s.budget) < 4
  }

  /** The job's confirmation of a purchase whose verdict has arrived. */
  method ConfirmPurchase(s: Session, id: Uuid) returns (r: Result<(), Error>)
    requires s.working == s.db.committed && id in s.db.committed.purchases
    modifies s, s.db
    ensures Settled(s, ConfirmByJob(id), r)
  {
    var _ :- ApplyPurchaseConfirmation(s, id);
    :- CommitAndPublish(s, ConfirmByJob(id), PurchaseConfirmed(id));
    return Ok(());
  }

  /** The job's rejection, after a hard decline or when the attempts are exhausted. */
  method RejectPurchase(s: Session, id: Uuid) returns (r: Result<(), Error>)
    requires s.working == s.db.committed && id in s.db.committed.purchases
    modifies s, s.db
    ensures Settled(s, RejectByJob(id), r)
  {
    var rejected :- UpdateStatus(s, id, Rejected);
    var purchase := rejected.value;
    if purchase.cashback > 0 {
      :- UpdateTransactionStatus(s, id, TxReversed);
      :- ReversePending(s, purchase.userId, purchase.cashback);
    }
    :- CommitAndPublish(s, RejectByJob(id), PurchaseRejected(id));
    return Ok(());
  }
}
