/**
 * The records the React client passes around (src/types/pos.ts). Prices are
 * whole centavos instead of JavaScript numbers.
 */
module ClientTypes {
  import opened Wrappers

  /** A catalog product; in the cart the same record carries the line's quantity. */
  datatype Product = Product(
    id: int,
    name: string,
    price: int,
    quantity: int,
    category: string,
    barcode: string,
    image: string,
    stock: int)

  /** The card form's three fields, as typed. */
  datatype CardDetails = CardDetails(cardNumber: string, expiryDate: string, cvv: string)

  /** `Transaction['status']`. */
  datatype TransactionStatus = Pending | Completed | Cancelled

  /** One entry of `Transaction['items']`. */
  datatype TransactionItem = TransactionItem(name: string, quantity: int, price: int)

  /** `Transaction['cardDetails']`: what is kept of a card. There is no place for the CVV. */
  datatype StoredCard = StoredCard(cardNumber: string, expiryDate: string)

  /** A transaction as the client keeps it in its local store. */
  datatype Transaction = Transaction(
    id: string,
    timestamp: string,
    total: int,
    status: TransactionStatus,
    paymentMethod: string,
    items: seq<TransactionItem>,
    cardDetails: Option<StoredCard>)
}
