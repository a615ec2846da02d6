/** A database session: the row objects the service updates in place, and the
    helpers of app/store.py that write them. Customers and cases are objects, and
    many cases may name one customer. `Snap` is the database as a value. */
module Session {
  import opened Domain
  import opened Lifecycle

  class CaseRecord {
    const id: nat
    const paymentId: string
    const invoiceId: string
    const subscriptionId: string
    const customerId: string
    const orderId: string
    const amount: int
    const cause: Cause
    const source: Source
    const createdAt: Option<int>
    const maxAttempts: nat
    var status: Status
    var attemptCount: int
    var deliveryFailures: int
    var lastAttemptAt: Option<int>
    var nextEligibleAt: Option<int>
    var haltedAt: Option<int>
    var link: Option<Link>
    var promise: Option<Promise>
    var credit: Option<Credit>

    constructor (i: nat, row: Case)
      ensures id == i && Row() == row
    {
      id := i;
      paymentId, invoiceId, subscriptionId := row.paymentId, row.invoiceId, row.subscriptionId;
      customerId, orderId, amount := row.customerId, row.orderId, row.amount;
      cause, source, createdAt, maxAttempts := row.cause, row.source, row.createdAt, row.maxAttempts;
      status, attemptCount, deliveryFailures := row.status, row.attemptCount, row.deliveryFailures;
      lastAttemptAt, nextEligibleAt, haltedAt := row.lastAttemptAt, row.nextEligibleAt, row.haltedAt;
      link, promise, credit := row.link, row.promise, row.credit;
    }

    function Row(): Case
      reads this
    {
      Case(paymentId, invoiceId, subscriptionId, customerId, orderId, amount, cause, source, createdAt, maxAttempts,
           status, attemptCount, deliveryFailures, lastAttemptAt, nextEligibleAt, haltedAt, link, promise, credit)
    }
  }

  class CustomerRecord {
    const key: string
    var phone: string
    var email: string
    var doNotContact: bool
    var phoneIsWrong: bool
    var lastContactedAt: Option<int>

    constructor (k: string, row: Customer)
      ensures key == k && Row() == row
    {
      key := k;
      phone, email, doNotContact := row.phone, row.email, row.doNotContact;
      phoneIsWrong, lastContactedAt := row.phoneIsWrong, row.lastContactedAt;
    }

    function Row(): Customer
      reads this
    {
      Customer(phone, email, doNotContact, phoneIsWrong, lastContactedAt)
    }
  }

  function RowOf(cu: CustomerRecord?): Option<Customer>
    reads if cu == null then {} else {cu}
  {
    if cu == null then None else Some(cu.Row())
  }

  /** The database with one case row, the row of one customer if any, the calls, the
      trail and the log replaced. */
  function PutRows(db: Db, i: nat, row: Case, k: string, cu: Option<Customer>,
                   calls: map<string, Call>, audit: seq<AuditRow>, log: seq<Entry>): Db {
    db.(cases := db.cases[i := row],
        customers := if cu.Some? then db.customers[k := cu.value] else db.customers,
        calls := calls, audit := audit, log := log)
  }

  class Tables {
    var cases: map<nat, CaseRecord>
    var customers: map<string, CustomerRecord>
    var payments: map<string, Payment>
    var subscriptions: map<string, Subscription>
    var calls: map<string, Call>
    var audit: seq<AuditRow>
    ghost var log: seq<Entry>

    constructor ()
      ensures Valid() && Snap() == EMPTY
    {
      cases, customers, payments, subscriptions, calls, audit, log := map[], map[], map[], map[], map[], [], [];
    }

    ghost function Records(): set<object>
      reads this
    {
      (set i | i in cases :: cases[i] as object) + (set k | k in customers :: customers[k] as object)
    }

    /** Every record is stored under its own key, so no two keys share one. */
    ghost predicate Valid()
      reads this
    {
      && (forall i | i in cases :: cases[i].id == i)
      && (forall k | k in customers :: customers[k].key == k)
    }

    ghost function Snap(): Db
      reads this, Records()
    {
      Db(map i | i in cases :: cases[i].Row(), map k | k in customers :: customers[k].Row(),
         payments, subscriptions, calls, audit, log)
    }

    /** `_customer_for`: the one object of the case's customer, if there is one. */
    function CustomerFor(c: CaseRecord): CustomerRecord?
      reads this
    {
      if c.customerId != "" && c.customerId in customers then customers[c.customerId] else null
    }

    method LogAction(c: CaseRecord, note: Note)
      modifies this`audit
      ensures audit == old(audit) + [AuditRow(c.id, note)]
    {
      audit := audit + [AuditRow(c.id, note)];
    }

    /** After updates in place of one case and of its customer, the snapshot is the
        old one with those two rows replaced: other cases of the same customer see
        the customer's new row because they share the object. */
    twostate lemma OneCaseMoved(i: nat, new cu: CustomerRecord?)
      requires old(Valid()) && i in old(cases) && cases == old(cases) && customers == old(customers)
      requires payments == old(payments) && subscriptions == old(subscriptions)
      requires cu != null ==> cu.key in customers && customers[cu.key] == cu
      requires forall j | j in cases && j != i :: unchanged(cases[j])
      requires forall k | k in customers && customers[k] != cu :: unchanged(customers[k])
      ensures Valid()
      ensures var k := if cu == null then "" else cu.key;
              Snap() == PutRows(old(Snap()), i, cases[i].Row(), k, RowOf(cu), calls, audit, log)
    {
      assert Snap().cases == old(Snap()).cases[i := cases[i].Row()];
      if cu != null { assert Snap().customers == old(Snap()).customers[cu.key := cu.Row()]; }
      else { assert Snap().customers == old(Snap()).customers; }
    }

    twostate lemma SameCases()
      requires cases == old(cases) && forall j | j in cases :: cases[j].Row() == old(cases[j].Row())
      ensures Snap().cases == old(Snap()).cases
    {
    }

    /** One customer object was put under its key, updated in place or new. */
    twostate lemma OneCustomerPut(k: string)
      requires k in customers && customers.Keys == old(customers.Keys) + {k}
      requires forall j | j in customers && j != k ::
               customers[j] == old(customers[j]) && customers[j].Row() == old(customers[j].Row())
      ensures Snap().customers == old(Snap()).customers[k := customers[k].Row()]
    {
    }

    /** One new case object was put under a new key. */
    twostate lemma OneCasePut(i: nat, new c: CaseRecord)
      requires old(Valid()) && customers == old(customers) && i !in old(cases) && c.id == i
      requires cases == old(cases)[i := c]
      requires forall j | j in old(cases) :: cases[j].Row() == old(cases[j].Row())
      requires forall j | j in customers :: customers[j].Row() == old(customers[j].Row())
      ensures Valid()
      ensures Snap().cases == old(Snap()).cases[i := c.Row()]
      ensures Snap().customers == old(Snap()).customers
    {
    }

    // ------------------------------------------------------- app/store.py

    method UpsertPayment(id: string, payment: Payment)
      requires Valid()
      modifies this`payments
      ensures Valid() && Snap() == old(Snap()).(payments := old(payments)[id := payment])
    {
      payments := payments[id := payment];
    }

    method UpsertSubscription(id: string, subscription: Subscription)
      requires Valid()
      modifies this`subscriptions
      ensures Valid() && Snap() == old(Snap()).(subscriptions := old(subscriptions)[id := subscription])
    {
      subscriptions := subscriptions[id := subscription];
    }

    method SetCall(sid: string, call: Call)
      requires Valid()
      modifies this`calls
      ensures Valid() && Snap() == old(Snap()).(calls := old(calls)[sid := call])
    {
      calls := calls[sid := call];
    }

    /** Insert, or refresh the contact columns of the row that is there. */
    method UpsertCustomer(id: string, phone: string, email: string)
      requires Valid()
      modifies this`customers, if id in customers then {customers[id]} else {}
      ensures Valid() && fresh(Records() - old(Records()))
      ensures Snap() == old(Snap()).(customers := Refreshed(old(Snap()).customers, id, phone, email))
      ensures id in customers && customers.Keys == old(customers.Keys) + {id}
      ensures customers[id].Row() == if id !in old(customers) then Customer(phone, email, false, false, None)
                                     else old(customers[id].Row()).(phone := phone, email := email)
    {
      if id in customers {
        var cu := customers[id];
        cu.phone, cu.email := phone, email;
      } else {
        var cu := new CustomerRecord(id, Customer(phone, email, false, false, None));
        customers := customers[id := cu];
      }
      SameCases();
      OneCustomerPut(id);
    }

    /** Insert unless the payment has a case already; None then. */
    method OpenRecoveryCase(newId: nat, row: Case) returns (c: CaseRecord?)
      requires Valid() && newId !in cases
      modifies this`cases
      ensures Valid() && fresh(Records() - old(Records()))
      ensures c == null <==> PaymentKnown(old(Snap()), row.paymentId)
      ensures c == null ==> Snap() == old(Snap())
      ensures c != null ==> cases == old(cases)[newId := c]
      ensures c != null ==> c.id == newId && Snap() == old(Snap()).(cases := old(Snap()).cases[newId := row])
    {
      if exists i | i in cases :: cases[i].paymentId == row.paymentId {
        var i :| i in cases && cases[i].paymentId == row.paymentId;
        assert Snap().cases[i].paymentId == row.paymentId;
        return null;
      }
      c := new CaseRecord(newId, row);
      cases := cases[newId := c];
      OneCasePut(newId, c);
    }

    /** False, and nothing written, if the case is RECOVERED already. */
    method MarkRecovered(c: CaseRecord, credit: Credit) returns (marked: bool)
      modifies c`status, c`credit
      ensures marked == !old(c.status).Recovered?
      ensures c.Row() == if marked then old(c.Row()).(status := Recovered, credit := Some(credit)) else old(c.Row())
    {
      if c.status.Recovered? { return false; }
      c.status := Recovered;
      c.credit := Some(credit);
      return true;
    }
  }
}
