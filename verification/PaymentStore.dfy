/** The payments database: at most one row per order, and the ids of consumed commands. */
module PaymentStore {
  import opened Types

  datatype PaymentDb = PaymentDb(payments: map<OrderId, Payment>, processed: set<MsgId>)

  /** Both unique keys are free, so the transaction commits. */
  predicate CanCreate(db: PaymentDb, o: OrderId, id: MsgId) {
    o !in db.payments && id !in db.processed
  }

  function CreateIn(db: PaymentDb, o: OrderId, payment: Payment, id: MsgId): PaymentDb {
    if CanCreate(db, o, id) then PaymentDb(db.payments[o := payment], db.processed + {id}) else db
  }

  class PaymentRepository {
    var payments: map<OrderId, Payment>
    var processed: set<MsgId>

    function Db(): PaymentDb
      reads this
    {
      PaymentDb(payments, processed)
    }

    constructor ()
      ensures Db() == PaymentDb(map[], {})
    {
      payments, processed := map[], {};
    }

    method IsProcessed(id: MsgId) returns (done: bool)
      ensures done <==> id in processed
    {
      done := id in processed;
    }

    method GetByOrderId(o: OrderId) returns (found: Option<Payment>)
      ensures found == if o in payments then Some(payments[o]) else None
    {
      found := if o in payments then Some(payments[o]) else None;
    }

    /** Row and mark in one transaction; a clash on either unique key rolls both back. */
    method CreatePaymentWithEvent(o: OrderId, payment: Payment, id: MsgId) returns (r: Result<()>)
      modifies this
      ensures Db() == CreateIn(old(Db()), o, payment, id)
      ensures r == if CanCreate(old(Db()), o, id) then Ok(()) else Err(DuplicateKey)
    {
      if o in payments { return Err(DuplicateKey); }
      var inserted := payments[o := payment];
      if id in processed { return Err(DuplicateKey); }
      payments, processed := inserted, processed + {id};
      r := Ok(());
    }
  }
}
