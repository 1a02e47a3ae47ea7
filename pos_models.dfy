/**
 * The Django models of the store's back end (pos/models.py) as values:
 * products, transactions with their items, card details and e-wallet
 * receipts. Money is in whole centavos (the source's two-decimal `Decimal`).
 */
module PosModels {
  import opened Wrappers
  import opened StringUtil

  /** `Product.CATEGORY_CHOICES`: the stored codes. */
  const CategoryChoices: seq<string> := ["meat", "vegetable"]

  /** A row of `Product`; `stock` is a plain integer and may go negative. */
  datatype Product = Product(
    id: int,
    name: string,
    price: int,
    category: string,
    barcode: string,
    image: string,
    stock: int)

  /** `Transaction.PAYMENT_CHOICES`. */
  datatype PaymentMethod = Cash | Card | Wallet

  /** `Transaction.STATUS_CHOICES`. */
  datatype Status = Pending | Completed | Cancelled

  /** The code stored for a payment method. */
  function PaymentCode(m: PaymentMethod): string {
    match m
    case Cash => "cash"
    case Card => "card"
    case Wallet => "wallet"
  }

  /** The payment method a stored code stands for, if it is one of the choices. */
  function ParsePaymentMethod(code: string): (r: Option<PaymentMethod>)
    ensures r.Some? ==> PaymentCode(r.value) == code
  {
    if code == "cash" then Some(Cash)
    else if code == "card" then Some(Card)
    else if code == "wallet" then Some(Wallet)
    else None
  }

  /** Every payment method's code reads back as that method. */
  lemma PaymentCodeRoundTrip(m: PaymentMethod)
    ensures ParsePaymentMethod(PaymentCode(m)) == Some(m)
  {
  }

  /** The code stored for a status. */
  function StatusCode(s: Status): string {
    match s
    case Pending => "pending"
    case Completed => "completed"
    case Cancelled => "cancelled"
  }

  /** The status a code stands for: exactly the three codes of the choices are accepted. */
  function ParseStatus(code: string): (r: Option<Status>)
    ensures r.Some? ==> StatusCode(r.value) == code
    ensures r.None? <==> code != "pending" && code != "completed" && code != "cancelled"
  {
    if code == "pending" then Some(Pending)
    else if code == "completed" then Some(Completed)
    else if code == "cancelled" then Some(Cancelled)
    else None
  }

  lemma StatusCodeRoundTrip(s: Status)
    ensures ParseStatus(StatusCode(s)) == Some(s)
  {
  }

  /** `Transaction.status`'s default. */
  const DefaultStatus: Status := Pending

  /**
   * A row of `TransactionItem`: the product (`None` once the product is
   * deleted), its name and price at the time of sale, and a quantity that
   * cannot be negative.
   */
  datatype TransactionItem = TransactionItem(
    productId: Option<int>,
    name: string,
    quantity: nat,
    price: int,
    barcode: string)

  /** `TransactionItem.subtotal`. */
  function Subtotal(item: TransactionItem): int {
    item.quantity * item.price
  }

  /** The subtotals of a list of items, added up. */
  function SumSubtotals(items: seq<TransactionItem>): int {
    if items == [] then 0 else SumSubtotals(items[..|items| - 1]) + Subtotal(items[|items| - 1])
  }

  /**
   * A row of `Transaction` with its items. `paymentMethod` is the code as
   * stored: nothing on the path that creates transactions checks it against
   * the choices.
   */
  datatype Transaction = Transaction(
    id: string,
    cashier: string,
    timestamp: int,
    total: int,
    status: Status,
    paymentMethod: string,
    customerContact: string,
    items: seq<TransactionItem>)

  /** A row of `CardDetail`. */
  datatype CardDetail = CardDetail(cardNumber: string, expiryDate: string)

  const CardEndingPrefix: string := "Card ending in "

  /** `CardDetail.__str__`: the text shows the last four characters of the card number, or all of them if fewer. */
  function CardDetailText(c: CardDetail): (r: string)
    ensures |r| - |CardEndingPrefix| == if |c.cardNumber| < 4 then |c.cardNumber| else 4
    ensures |r| - |CardEndingPrefix| <= |c.cardNumber|
    ensures r[..|CardEndingPrefix|] == CardEndingPrefix
    ensures r[|CardEndingPrefix|..] == c.cardNumber[|c.cardNumber| - (|r| - |CardEndingPrefix|)..]
  {
    CardEndingPrefix + LastFour(c.cardNumber)
  }

  /** A row of `EWalletReceipt`: one per transaction at most. */
  datatype EWalletReceipt = EWalletReceipt(receiptImage: string, uploadedAt: int)

  /** The product table is keyed by `Product.id`, its primary key. */
  predicate KeyedById(products: map<int, Product>) {
    forall k :: k in products ==> products[k].id == k
  }

  /** `barcode = models.CharField(..., unique=True)`, as a property of the product table. */
  predicate BarcodesUnique(products: map<int, Product>) {
    forall i, j :: i in products && j in products && products[i].barcode == products[j].barcode ==> i == j
  }

  /** The products a barcode lookup can find. */
  function ProductIdsWithBarcode(products: map<int, Product>, barcode: string): set<int> {
    set i | i in products && products[i].barcode == barcode
  }

  /** A set whose elements are all equal has at most one element. */
  lemma AllEqualAtMostOne(s: set<int>)
    requires forall x, y :: x in s && y in s ==> x == y
    ensures |s| <= 1
  {
    if x :| x in s {
      assert forall y :: y in s ==> y == x;
      assert s == {x};
    } else {
      assert forall y :: y !in s;
      var none: set<int> := {};
      assert s <= none;
      assert |s| <= |none|;
    }
  }

  /** With unique barcodes a lookup by barcode finds one product or none. */
  lemma BarcodeLookupAtMostOne(products: map<int, Product>, barcode: string)
    requires BarcodesUnique(products)
    ensures |ProductIdsWithBarcode(products, barcode)| <= 1
  {
    AllEqualAtMostOne(ProductIdsWithBarcode(products, barcode));
  }
}
