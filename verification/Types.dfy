/** Rows, messages and identifiers shared by the three services. */
module Types {

  type OrderId = nat
  type SagaId = nat
  type ProductId = nat
  type MsgId = nat
  type TxId = nat

  datatype Option<+T> = None | Some(value: T)

  datatype Result<+T> = Ok(value: T) | Err(error: Error)

  datatype Error = SagaNotFound | OrderNotFound | ProductNotFound | DuplicateKey

  // ----- orders database -----

  datatype OrderStatus =
    | OrderPending | OrderInventoryReserved | OrderPaid | OrderConfirmed | OrderFailed | OrderCompensated

  datatype SagaStep = ReservingInventory | ProcessingPayment | ReleasingInventory | Done

  datatype SagaStatus = InProgress | Completed | Failed | Compensating | Compensated

  /** Amounts are integer cents. */
  datatype Order = Order(product: ProductId, quantity: int, amount: int, status: OrderStatus)

  datatype Saga = Saga(order: OrderId, step: SagaStep, status: SagaStatus, lastEvent: Option<MsgId>)

  // ----- inventory database -----

  datatype Inventory = Inventory(available: int, reserved: int, version: int)

  datatype Action = Reserve | Release

  datatype LogEntry = LogEntry(product: ProductId, order: OrderId, action: Action, quantity: int)

  // ----- payments database -----

  datatype PaymentStatus = PaymentPending | PaymentSuccess | PaymentFailed | PaymentRefunded

  datatype Payment = Payment(amount: int, status: PaymentStatus, tx: TxId)

  // ----- messages: three commands and three events -----

  datatype Message =
    | ReserveInventory(saga: SagaId, order: OrderId, product: ProductId, quantity: int)
    | InventoryReserved(saga: SagaId, order: OrderId, product: ProductId, quantity: int, success: bool)
    | ProcessPayment(saga: SagaId, order: OrderId, amount: int)
    | PaymentProcessed(saga: SagaId, order: OrderId, tx: TxId, success: bool)
    | ReleaseInventory(saga: SagaId, order: OrderId, product: ProductId, quantity: int)
    | InventoryReleased(saga: SagaId, order: OrderId, product: ProductId, quantity: int, success: bool)
  {
    predicate IsEvent() {
      InventoryReserved? || PaymentProcessed? || InventoryReleased?
    }

    /** The saga step an event answers. */
    function Answers(): SagaStep
      requires IsEvent()
    {
      match this
      case InventoryReserved(_, _, _, _, _) => ReservingInventory
      case PaymentProcessed(_, _, _, _) => ProcessingPayment
      case InventoryReleased(_, _, _, _, _) => ReleasingInventory
    }
  }

  /** How an attempt to publish went: confirmed, sent although it reported an error, or not sent. */
  datatype Sending = Confirmed | Unconfirmed | Unsent

  /** How many effective commits a saga at this step still has to make at most. */
  function Rank(step: SagaStep): nat {
    match step
    case ReservingInventory => 3
    case ProcessingPayment => 2
    case ReleasingInventory => 1
    case Done => 0
  }
}
