/**
 * The database, its sessions, and the repositories' statements. A session flushes to a working copy that
 * nobody else sees; `Commit` publishes it whole. Its connection may be lost at any statement.
 */
module Store {
  import opened Wrappers
  import opened Ledger
  import Wallets

  /** A subscriber, by its position in registration order, has handled an event. */
  datatype Delivery = Delivery(subscriber: nat, event: Event)

  /** The first subscriber that raises, or their number when none does. */
  function FirstRaising(subscribers: seq<bool>): (n: nat)
    ensures n <= |subscribers|
    ensures forall i :: 0 <= i < n ==> subscribers[i]
    ensures n < |subscribers| ==> !subscribers[n]
  {
    if subscribers == [] || !subscribers[0] then 0 else 1 + FirstRaising(subscribers[1..])
  }

  function Deliveries(e: Event, n: nat): seq<Delivery> {
    seq(n, i requires 0 <= i < n => Delivery(i, e))
  }

  class Database {
    var committed: Books
    /** The events whose publication has completed. */
    var published: seq<Event>
    /** What subscribers have handled, also of events that a later subscriber did not. */
    var handled: seq<Delivery>
    ghost var clawed: set<Uuid>

    constructor ()
      ensures Current() == INITIAL
    {
      committed := Books(map[], map[], map[]);
      published, handled := [], [];
      clawed := {};
    }

    ghost function Current(): State
      reads this
    {
      State(committed, clawed, published)
    }
  }

  class Session {
    const db: Database
    var working: Books
    /** How many more statements the connection will carry. */
    var budget: nat
    /** For each subscriber of this session's event, whether it handles it without raising. */
    const subscribers: seq<bool>

    constructor (db: Database, budget: nat, subscribers: seq<bool>)
      ensures this.db == db && working == db.committed && this.budget == budget && this.subscribers == subscribers
    {
      this.db := db;
      working := db.committed;
      this.budget := budget;
      this.subscribers := subscribers;
    }

    method Execute() returns (a: Attempt<Error>)
      modifies this`budget
      ensures Executed(this, a, working)
    {
      if budget == 0 {
        return Raised(ConnectionLost);
      }
      budget := budget - 1;
      return Done;
    }

    /** All flushed changes become visible together, or none does. */
    method Commit() returns (a: Attempt<Error>)
      modifies this`budget, db`committed
      ensures Executed(this, a, working)
      ensures db.committed == if a.Done? then working else old(db.committed)
    {
      a := Execute();
      if a.Done? {
        db.committed := working;
      }
    }

    /** No subscriber raises. */
    predicate Heard() {
      forall i :: 0 <= i < |subscribers| ==> subscribers[i]
    }

    /**
     * Hands the event to the subscribers in order. The first that raises ends the publication: its exception
     * comes back to the publisher, and the later ones never see the event.
     */
    method Publish(e: Event) returns (a: Attempt<Error>)
      modifies db`published, db`handled
      ensures db.handled == old(db.handled) + Deliveries(e, FirstRaising(subscribers))
      ensures a == if forall i :: 0 <= i < |subscribers| ==> subscribers[i] then Done else Raised(SubscriberFailed)
      ensures db.published == if Heard() then old(db.published) + [e] else old(db.published)
    {
      for i := 0 to |subscribers|
        invariant i <= FirstRaising(subscribers)
        invariant db.handled == old(db.handled) + Deliveries(e, i)
        invariant db.published == old(db.published)
      {
        if !subscribers[i] {
          return Raised(SubscriberFailed);
        }
        db.handled := db.handled + [Delivery(i, e)];
        assert Deliveries(e, i + 1) == Deliveries(e, i) + [Delivery(i, e)];
      }
      db.published := db.published + [e];
      return Done;
    }
  }

  /** One statement: it makes the working copy `next`, or the connection is lost and nothing changes. */
  twostate predicate Executed(s: Session, new a: Attempt<Error>, next: Books)
    reads s
  {
    && (a.Done? <==> old(s.budget) > 0)
    && s.budget == (if old(s.budget) > 0 then old(s.budget) - 1 else 0)
    && s.working == (if a.Done? then next else old(s.working))
    && (a.Raised? ==> a.error == ConnectionLost)
  }

  // ----- purchases

  method GetById(s: Session, id: Uuid) returns (r: Result<Option<Purchase>, Error>)
    modifies s`budget
    ensures r.Ok? <==> old(s.budget) > 0
    ensures s.budget == if old(s.budget) > 0 then old(s.budget) - 1 else 0
    ensures match r
            case Ok(p) => p == if id in s.working.purchases then Some(s.working.purchases[id]) else None
            case Err(e) => e == ConnectionLost
  {
    var executed := s.Execute();
    :- executed;
    return Ok(if id in s.working.purchases then Some(s.working.purchases[id]) else None);
  }

  method GetByExternalId(s: Session, externalId: ExternalId) returns (r: Result<Option<Purchase>, Error>)
    modifies s`budget
    ensures r.Ok? <==> old(s.budget) > 0
    ensures s.budget == if old(s.budget) > 0 then old(s.budget) - 1 else 0
    ensures match r
            case Ok(p) => p.Some? <==> ExternalIdTaken(s.working, externalId)
            case Err(e) => e == ConnectionLost
    ensures r.Ok? && r.value.Some? ==> r.value.value.externalId == externalId
  {
    var executed := s.Execute();
    :- executed;
    if ExternalIdTaken(s.working, externalId) {
      var id :| id in s.working.purchases && s.working.purchases[id].externalId == externalId;
      return Ok(Some(s.working.purchases[id]));
    }
    return Ok(None);
  }

  /** The insert fails on a taken primary key or external id. */
  method AddPurchase(s: Session, id: Uuid, p: Purchase) returns (a: Attempt<Error>)
    modifies s
    ensures a == Raised(PrimaryKeyTaken) <==>
      old(s.budget) > 0 && (id in old(s.working).purchases || ExternalIdTaken(old(s.working), p.externalId))
    ensures a == Raised(PrimaryKeyTaken) ==> s.working == old(s.working)
    ensures a != Raised(PrimaryKeyTaken) ==> Executed(s, a, InsertPurchase(old(s.working), id, p))
  {
    a := s.Execute();
    if a.Done? {
      if id in s.working.purchases || ExternalIdTaken(s.working, p.externalId) {
        return Raised(PrimaryKeyTaken);
      }
      s.working := InsertPurchase(s.working, id, p);
    }
  }

  /** Sets the status and reads the row again. */
  method UpdateStatus(s: Session, id: Uuid, status: Status) returns (r: Result<Option<Purchase>, Error>)
    modifies s
    ensures r.Ok? <==> old(s.budget) > 0
    ensures s.budget == if old(s.budget) > 0 then old(s.budget) - 1 else 0
    ensures s.working == if r.Ok? then SetStatus(old(s.working), id, status) else old(s.working)
    ensures match r
            case Ok(p) => p == if id in s.working.purchases then Some(s.working.purchases[id]) else None
            case Err(e) => e == ConnectionLost
  {
    var executed := s.Execute();
    :- executed;
    if id !in s.working.purchases {
      return Ok(None);
    }
    s.working := SetStatus(s.working, id, status);
    return Ok(Some(s.working.purchases[id]));
  }

  method ReversePurchaseRow(s: Session, id: Uuid) returns (a: Attempt<Error>)
    modifies s
    ensures Executed(s, a, ReverseRow(old(s.working), id))
  {
    a := s.Execute();
    if a.Done? {
      s.working := ReverseRow(s.working, id);
    }
  }

  // ----- cashback transactions

  /** The insert fails when the purchase already has a transaction. */
  method CreateTransaction(s: Session, id: Uuid, userId: Uuid, amount: nat) returns (a: Attempt<Error>)
    modifies s
    ensures a == Raised(PrimaryKeyTaken) <==> old(s.budget) > 0 && id in old(s.working).transactions
    ensures a == Raised(PrimaryKeyTaken) ==> s.working == old(s.working)
    ensures a != Raised(PrimaryKeyTaken) ==> Executed(s, a, InsertTransaction(old(s.working), id, userId, amount))
  {
    a := s.Execute();
    if a.Done? {
      if id in s.working.transactions {
        return Raised(PrimaryKeyTaken);
      }
      s.working := InsertTransaction(s.working, id, userId, amount);
    }
  }

  method UpdateTransactionStatus(s: Session, id: Uuid, status: TxStatus) returns (a: Attempt<Error>)
    modifies s
    ensures Executed(s, a, SetTransactionStatus(old(s.working), id, status))
  {
    a := s.Execute();
    if a.Done? {
      s.working := SetTransactionStatus(s.working, id, status);
    }
  }

  // ----- wallets

  /** The upsert behind a credit. */
  method CreditPending(s: Session, userId: Uuid, amount: nat) returns (a: Attempt<Error>)
    modifies s
    ensures Executed(s, a, ChangeWallet(old(s.working), Wallets.CreditPending(userId, amount)))
  {
    a := s.Execute();
    if a.Done? {
      var t := s.working.wallets;
      if userId in t {
        var w := t[userId];
        s.working := s.working.(wallets := t[userId := w.(pending := w.pending + amount)]);
      } else {
        s.working := s.working.(wallets := t[userId := Wallets.Wallet(amount, 0, 0)]);
      }
    }
  }

  method ConfirmPending(s: Session, userId: Uuid, amount: nat) returns (a: Attempt<Error>)
    modifies s
    ensures Executed(s, a, ChangeWallet(old(s.working), Wallets.ConfirmPending(userId, amount)))
  {
    a := s.Execute();
    var t := s.working.wallets;
    if a.Done? && userId in t {
      var w := t[userId];
      s.working := s.working.(wallets :=
        t[userId := w.(pending := w.pending - amount, available := w.available + amount)]);
    }
  }

  method ReversePending(s: Session, userId: Uuid, amount: nat) returns (a: Attempt<Error>)
    modifies s
    ensures Executed(s, a, ChangeWallet(old(s.working), Wallets.ReversePending(userId, amount)))
  {
    a := s.Execute();
    var t := s.working.wallets;
    if a.Done? && userId in t {
      s.working := s.working.(wallets := t[userId := t[userId].(pending := t[userId].pending - amount)]);
    }
  }

  method ReverseAvailable(s: Session, userId: Uuid, amount: nat) returns (a: Attempt<Error>)
    modifies s
    ensures Executed(s, a, ChangeWallet(old(s.working), Wallets.ReverseAvailable(userId, amount)))
  {
    a := s.Execute();
    var t := s.working.wallets;
    if a.Done? && userId in t {
      s.working := s.working.(wallets := t[userId := t[userId].(available := t[userId].available - amount)]);
    }
  }
}
