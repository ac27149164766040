/**
 * Application types the Lightning store and the screens share
 * (the enumerations and records of the wallet's `utils/types`).
 */
module Types {
  import opened Ldk

  /**
   * The node's lifecycle state. The store starts at `Offline` and compares
   * only against `Complete`; the other members stand for the rest of the
   * enumeration.
   */
  datatype NodeState = Offline | Initializing | Running | Complete | Error

  /** The versions reported by the embedded node. */
  datatype NodeVersion = NodeVersion(ldk: string, cBindings: string)

  /** Direction of a recorded payment. */
  datatype PaymentType = Sent | Received

  /** A payment as stored (and as handed to `addPayment`): the invoice and its direction. */
  datatype Payment = Payment(invoice: Invoice, kind: PaymentType)

  /** The kind of PIN the user configured; `Unset` until onboarding sets one. */
  datatype PinType = Unset | Custom | Device
}
