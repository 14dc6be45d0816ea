/** The billing side of the sales/billing pair: every payment registered for
    an order is approved and stored under an ID derived from the order's ID. */
module Billing {
  import opened Outcomes

  datatype PaymentStatus = Approved | Rejected

  /** Money in non-negative whole cents. */
  datatype Money = Money(amountCents: nat, currency: string)

  /** `processedAt` is the clock reading at registration. */
  datatype Payment = Payment(id: string, orderId: string, amount: Money, status: PaymentStatus,
                             processedAt: nat)

  const PaymentPrefix: string := "PAY-"

  /** The payment ID of an order: the prefix followed by the order's ID. */
  function PaymentId(orderId: string): (r: string)
    ensures |r| == |PaymentPrefix| + |orderId|
    ensures r[..|PaymentPrefix|] == PaymentPrefix && r[|PaymentPrefix|..] == orderId
  {
    PaymentPrefix + orderId
  }

  /** Distinct orders get distinct payment IDs. */
  lemma PaymentIdIsInjective(a: string, b: string)
    ensures PaymentId(a) == PaymentId(b) <==> a == b
  {
    if PaymentId(a) == PaymentId(b) {
      assert a == PaymentId(a)[|PaymentPrefix|..] == PaymentId(b)[|PaymentPrefix|..] == b;
    }
  }

  /** The payments after registering one for `orderId`. */
  function Registered(db: map<string, Payment>, orderId: string, amount: Money, now: nat): map<string, Payment>
  {
    db[PaymentId(orderId) := Payment(PaymentId(orderId), orderId, amount, Approved, now)]
  }

  /** Registering again for the same order replaces the earlier payment, and
      registering for one order leaves the payments of every other order
      alone. */
  lemma RegisterReplaces(db: map<string, Payment>, orderId: string, a1: Money, t1: nat, a2: Money, t2: nat)
    ensures Registered(Registered(db, orderId, a1, t1), orderId, a2, t2) == Registered(db, orderId, a2, t2)
    ensures forall other :: other != orderId && PaymentId(other) in db ==>
              PaymentId(other) in Registered(db, orderId, a1, t1) &&
              Registered(db, orderId, a1, t1)[PaymentId(other)] == db[PaymentId(other)]
  {
    forall other | other != orderId && PaymentId(other) in db
      ensures Registered(db, orderId, a1, t1)[PaymentId(other)] == db[PaymentId(other)]
    {
      PaymentIdIsInjective(other, orderId);
    }
  }

  class PaymentRepository {
    var db: map<string, Payment>

    constructor()
      ensures db == map[]
    {
      db := map[];
    }

    /** Inserts, or overwrites the payment stored under the same ID. */
    method Save(p: Payment)
      modifies this
      ensures db == old(db)[p.id := p]
    {
      db := db[p.id := p];
    }

    /** The stored payment; an unknown ID is an error. */
    method Get(pid: string) returns (r: Result<Payment>)
      ensures pid in db ==> r == Ok(db[pid])
      ensures pid !in db ==> r == Err(PaymentNotFound(pid))
    {
      if pid !in db {
        return Err(PaymentNotFound(pid));
      }
      return Ok(db[pid]);
    }
  }

  class BillingService {
    const repo: PaymentRepository

    constructor(repo: PaymentRepository)
      ensures this.repo == repo
    {
      this.repo := repo;
    }

    /** Approves and stores a payment of `amount` for the order; the stored
        payment is the one returned, and it can be read back by its ID.
        `now` stands for the processing clock reading. */
    method RegisterPayment(orderId: string, amount: Money, now: nat) returns (p: Payment)
      modifies repo
      ensures p == Payment(PaymentId(orderId), orderId, amount, Approved, now)
      ensures repo.db == Registered(old(repo.db), orderId, amount, now)
      ensures p.id in repo.db && repo.db[p.id] == p
    {
      var pid := PaymentPrefix + orderId;
      p := Payment(pid, orderId, amount, Approved, now);
      repo.Save(p);
    }
  }
}
