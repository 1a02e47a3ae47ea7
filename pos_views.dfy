/**
 * The JSON endpoints of the store's back end (pos/views.py) that change
 * state: the session cart (add, update, remove, clear), checkout, the
 * e-wallet receipt upload and the administrator's status change. The
 * session's `cart` list and the database tables are the fields of
 * `PosBackend`; each view is a method that answers with a value or an
 * `ApiError` instead of an HTTP response.
 */
module PosViews {
  import opened Wrappers
  import opened Seqs
  import opened PosModels

  /** One entry of the session cart, as `add_to_cart` builds it. Prices are centavos. */
  datatype CartLine = CartLine(id: int, name: string, price: int, quantity: int, image: string, barcode: string)

  /** The error answers of the views. */
  datatype ApiError =
    | InvalidQuantity
    | ProductNotFound
    | NotEnoughStock
    | NotInCart
    | CartEmpty
    | IdTaken                 // the database refuses a second row with the same transaction id
    | NotWalletPayment
    | ReceiptAlreadyUploaded
    | NoReceiptImage
    | TransactionNotFound
    | NoProfile               // `request.user.profile` does not exist
    | PermissionDenied
    | InvalidStatus

  /** The HTTP status each error is sent with. */
  function HttpStatus(e: ApiError): nat {
    match e
    case ProductNotFound => 404
    case NotInCart => 404
    case TransactionNotFound => 404
    case PermissionDenied => 403
    case _ => 400
  }

  /** The answer of a view that only reports success. */
  datatype Reply = Success | Failed(error: ApiError)

  // ---------------------------------------------------------------------
  // The session cart

  /** The position of the first line for product `id`, or `|cart|` when there is none. */
  function LineIndex(cart: seq<CartLine>, id: int): (k: nat)
    ensures k <= |cart|
    ensures k < |cart| ==> cart[k].id == id
    ensures forall j :: 0 <= j < k ==> cart[j].id != id
  {
    if cart == [] then 0
    else if cart[0].id == id then 0
    else 1 + LineIndex(cart[1..], id)
  }

  /** What every view that writes the cart keeps: one line per product, each with a positive quantity. */
  predicate CartWellFormed(cart: seq<CartLine>) {
    && (forall i, j :: 0 <= i < j < |cart| ==> cart[i].id != cart[j].id)
    && (forall i :: 0 <= i < |cart| ==> cart[i].quantity > 0)
  }

  /** The line `add_to_cart` appends for a product not yet in the cart. */
  function NewLine(p: Product, quantity: int): CartLine {
    CartLine(p.id, p.name, p.price, quantity, p.image, p.barcode)
  }

  /**
   * The answer of `add_to_cart`: the new cart, or the error. The stock
   * check compares the product's stock with the requested quantity only.
   * A product already in the cart gets its line's quantity raised and keeps
   * everything else; a new product gets exactly one line at the end.
   */
  function CartAfterAdd(cart: seq<CartLine>, products: map<int, Product>, productId: int, quantity: int)
    : (r: Result<seq<CartLine>, ApiError>)
    ensures r.Err? <==> quantity <= 0 || productId !in products || products[productId].stock < quantity
    ensures quantity <= 0 ==> r == Err(InvalidQuantity)
    ensures quantity > 0 && productId !in products ==> r == Err(ProductNotFound)
    ensures quantity > 0 && productId in products && products[productId].stock < quantity ==> r == Err(NotEnoughStock)
    ensures r.Ok? && LineIndex(cart, productId) < |cart| ==>
      var k := LineIndex(cart, productId);
      && |r.value| == |cart|
      && r.value[k].quantity == cart[k].quantity + quantity
      && r.value[k].(quantity := 0) == cart[k].(quantity := 0)
      && (forall j :: 0 <= j < |cart| && j != k ==> r.value[j] == cart[j])
    ensures r.Ok? && LineIndex(cart, productId) == |cart| ==>
      r.value == cart + [NewLine(products[productId], quantity)]
    ensures r.Ok? && CartWellFormed(cart) && KeyedById(products) ==> CartWellFormed(r.value)
  {
    if quantity <= 0 then Err(InvalidQuantity)
    else if productId !in products then Err(ProductNotFound)
    else if products[productId].stock < quantity then Err(NotEnoughStock)
    else
      var k := LineIndex(cart, productId);
      if k < |cart| then Ok(cart[k := cart[k].(quantity := cart[k].quantity + quantity)])
      else Ok(cart + [NewLine(products[productId], quantity)])
  }

  /**
   * The stock check does not count what is already in the cart: with 5 of a
   * product in the cart and 6 in stock, adding 5 more succeeds and leaves 10
   * in the cart.
   */
  lemma AddChecksOnlyRequestedQuantity()
    ensures var p := Product(1, "Pork Belly", 32000, "meat", "4800000000001", "", 6);
            var line := NewLine(p, 5);
            var r := CartAfterAdd([line], map[1 := p], 1, 5);
            r.Ok? && r.value == [line.(quantity := 10)] && r.value[0].quantity > p.stock
  {
    var p := Product(1, "Pork Belly", 32000, "meat", "4800000000001", "", 6);
    assert LineIndex([NewLine(p, 5)], 1) == 0;
  }

  /**
   * The answer of `update_cart_item`: the quantity of the product's line is
   * set (not added to). The stock check is skipped when the product no
   * longer exists.
   */
  function CartAfterUpdate(cart: seq<CartLine>, products: map<int, Product>, productId: int, quantity: int)
    : (r: Result<seq<CartLine>, ApiError>)
    ensures quantity <= 0 ==> r == Err(InvalidQuantity)
    ensures quantity > 0 && LineIndex(cart, productId) == |cart| ==> r == Err(NotInCart)
    ensures quantity > 0 && LineIndex(cart, productId) < |cart| && productId in products && products[productId].stock < quantity ==>
      r == Err(NotEnoughStock)
    ensures r.Ok? <==> quantity > 0 && LineIndex(cart, productId) < |cart|
                       && (productId in products ==> products[productId].stock >= quantity)
    ensures r.Ok? ==>
      var k := LineIndex(cart, productId);
      && |r.value| == |cart|
      && r.value[k].quantity == quantity
      && r.value[k].(quantity := 0) == cart[k].(quantity := 0)
      && (forall j :: 0 <= j < |cart| && j != k ==> r.value[j] == cart[j])
    ensures r.Ok? && CartWellFormed(cart) ==> CartWellFormed(r.value)
  {
    if quantity <= 0 then Err(InvalidQuantity)
    else
      var k := LineIndex(cart, productId);
      if k == |cart| then Err(NotInCart)
      else if productId in products && products[productId].stock < quantity then Err(NotEnoughStock)
      else Ok(cart[k := cart[k].(quantity := quantity)])
  }

  /**
   * The cart `remove_from_cart` leaves: every line of the product is gone,
   * the others stay in their order, and removing a product that is not in
   * the cart changes nothing.
   */
  function CartAfterRemove(cart: seq<CartLine>, productId: int): (r: seq<CartLine>)
    ensures forall l :: l in r <==> l in cart && l.id != productId
    ensures SubsequenceOf(r, cart)
    ensures LineIndex(cart, productId) == |cart| ==> r == cart
    ensures CartWellFormed(cart) ==> CartWellFormed(r)
  {
    var keep := (l: CartLine) => l.id != productId;
    FilterIsSubsequence(cart, keep);
    FilterKeepsWellFormed(cart, keep);
    if LineIndex(cart, productId) == |cart| then
      FilterKeepsAll(cart, keep);
      Filter(cart, keep)
    else
      Filter(cart, keep)
  }

  /** Dropping lines keeps a cart well formed. */
  lemma {:induction false} FilterKeepsWellFormed(cart: seq<CartLine>, keep: CartLine -> bool)
    ensures CartWellFormed(cart) ==> CartWellFormed(Filter(cart, keep))
    decreases |cart|
  {
    if cart != [] && CartWellFormed(cart) {
      assert CartWellFormed(cart[1..]);
      FilterKeepsWellFormed(cart[1..], keep);
      var rest := Filter(cart[1..], keep);
      forall l | l in rest
        ensures l.id != cart[0].id
      {
        var j :| 0 <= j < |cart[1..]| && cart[1..][j] == l;
        assert cart[j + 1] == l;
      }
    }
  }

  // ---------------------------------------------------------------------
  // Checkout

  /** `sum(item['price'] * item['quantity'] for item in cart)`. */
  function CartTotal(cart: seq<CartLine>): int {
    if cart == [] then 0 else CartTotal(cart[..|cart| - 1]) + cart[|cart| - 1].price * cart[|cart| - 1].quantity
  }

  /** The `TransactionItem` created for a cart line. */
  function ItemOf(line: CartLine): (item: TransactionItem)
    requires line.quantity >= 0
    ensures item.productId == Some(line.id) && item.name == line.name && item.barcode == line.barcode
    ensures item.quantity == line.quantity && item.price == line.price
  {
    TransactionItem(Some(line.id), line.name, line.quantity, line.price, line.barcode)
  }

  predicate QuantitiesNonNegative(cart: seq<CartLine>) {
    forall i :: 0 <= i < |cart| ==> cart[i].quantity >= 0
  }

  /** The items of the new transaction: one per cart line, in cart order. */
  function ItemsOf(cart: seq<CartLine>): (items: seq<TransactionItem>)
    requires QuantitiesNonNegative(cart)
    ensures |items| == |cart|
    ensures forall i :: 0 <= i < |cart| ==> items[i] == ItemOf(cart[i])
  {
    if cart == [] then [] else ItemsOf(cart[..|cart| - 1]) + [ItemOf(cart[|cart| - 1])]
  }

  /** The transaction's total is the sum of its items' subtotals. */
  lemma {:induction false} CartTotalIsSumOfSubtotals(cart: seq<CartLine>)
    requires QuantitiesNonNegative(cart)
    ensures CartTotal(cart) == SumSubtotals(ItemsOf(cart))
    decreases |cart|
  {
    if cart != [] {
      var front, last := cart[..|cart| - 1], cart[|cart| - 1];
      CartTotalIsSumOfSubtotals(front);
      var items := ItemsOf(cart);
      assert items[..|items| - 1] == ItemsOf(front);
      assert Subtotal(items[|items| - 1]) == last.price * last.quantity;
    }
  }

  /**
   * The transaction `create_transaction` records for a cart: the cart's total,
   * status pending whatever the payment method, and one item per line.
   */
  function NewTransaction(cart: seq<CartLine>, id: string, cashier: string, now: int,
                          paymentMethod: string, contact: string): (t: Transaction)
    requires QuantitiesNonNegative(cart)
    ensures t.status == Pending && t.id == id && t.paymentMethod == paymentMethod
    ensures t.total == SumSubtotals(t.items)
    ensures |t.items| == |cart| && forall i :: 0 <= i < |cart| ==> t.items[i] == ItemOf(cart[i])
  {
    CartTotalIsSumOfSubtotals(cart);
    Transaction(id, cashier, now, CartTotal(cart), DefaultStatus, paymentMethod, contact, ItemsOf(cart))
  }

  /** One line's effect on the product table: the product's stock drops by the line's quantity, if it still exists. */
  function SellLine(products: map<int, Product>, line: CartLine): map<int, Product> {
    if line.id in products then products[line.id := products[line.id].(stock := products[line.id].stock - line.quantity)]
    else products
  }

  /** The product table after the stock loop of `create_transaction`. */
  function StockAfterSale(products: map<int, Product>, cart: seq<CartLine>): map<int, Product> {
    if cart == [] then products else SellLine(StockAfterSale(products, cart[..|cart| - 1]), cart[|cart| - 1])
  }

  /** The stock loop's step: the items and the product table after one more line. */
  lemma SaleStep(products: map<int, Product>, lines: seq<CartLine>, i: nat)
    requires i < |lines| && QuantitiesNonNegative(lines)
    ensures QuantitiesNonNegative(lines[..i]) && QuantitiesNonNegative(lines[..i + 1])
    ensures ItemsOf(lines[..i + 1]) == ItemsOf(lines[..i]) + [ItemOf(lines[i])]
    ensures StockAfterSale(products, lines[..i + 1]) == SellLine(StockAfterSale(products, lines[..i]), lines[i])
  {
    assert lines[..i + 1][..i] == lines[..i];
  }

  /** Selling keeps the table keyed by product id. */
  lemma SellLineKeepsKeys(products: map<int, Product>, line: CartLine)
    requires KeyedById(products)
    ensures KeyedById(SellLine(products, line))
  {
  }

  /** How many of product `id` the cart holds, over all its lines. */
  function QuantityInCart(cart: seq<CartLine>, id: int): int {
    if cart == [] then 0
    else QuantityInCart(cart[..|cart| - 1], id) + (if cart[|cart| - 1].id == id then cart[|cart| - 1].quantity else 0)
  }

  /**
   * Checkout's effect on each product: an existing product's stock drops by
   * the quantity of it in the cart, with no lower bound, and nothing else
   * about it changes; no product is added or removed.
   */
  lemma {:induction false} StockAfterSaleEffect(products: map<int, Product>, cart: seq<CartLine>, id: int)
    ensures id in StockAfterSale(products, cart) <==> id in products
    ensures id in products ==>
      StockAfterSale(products, cart)[id] == products[id].(stock := products[id].stock - QuantityInCart(cart, id))
    decreases |cart|
  {
    if cart != [] {
      StockAfterSaleEffect(products, cart[..|cart| - 1], id);
    }
  }

  /** In a well-formed cart the quantity of a product is that of its one line, or 0. */
  lemma {:induction false} QuantityInWellFormedCart(cart: seq<CartLine>, id: int)
    requires CartWellFormed(cart)
    ensures LineIndex(cart, id) < |cart| ==> QuantityInCart(cart, id) == cart[LineIndex(cart, id)].quantity
    ensures LineIndex(cart, id) == |cart| ==> QuantityInCart(cart, id) == 0
    decreases |cart|
  {
    if cart != [] {
      var front := cart[..|cart| - 1];
      assert CartWellFormed(front);
      QuantityInWellFormedCart(front, id);
      var k := LineIndex(cart, id);
      if k < |cart| - 1 {
        assert LineIndex(front, id) == k;
        assert cart[|cart| - 1].id != id;
      } else if k == |cart| - 1 {
        assert LineIndex(front, id) == |front|;
      } else {
        assert LineIndex(front, id) == |front|;
      }
    }
  }

  // ---------------------------------------------------------------------
  // E-wallet receipts and status changes

  /** The checks of `upload_ewallet_receipt`, in the order the view makes them. */
  function ReceiptUploadError(transactions: map<string, Transaction>, receipts: map<string, EWalletReceipt>,
                              id: string, image: Option<string>): (e: Option<ApiError>)
    ensures e.None? <==> id in transactions && transactions[id].paymentMethod == "wallet"
                         && id !in receipts && image.Some?
    ensures id !in transactions ==> e == Some(TransactionNotFound)
    ensures id in transactions && transactions[id].paymentMethod != "wallet" ==> e == Some(NotWalletPayment)
    ensures id in transactions && transactions[id].paymentMethod == "wallet" && id in receipts ==>
              e == Some(ReceiptAlreadyUploaded)
    ensures id in transactions && transactions[id].paymentMethod == "wallet" && id !in receipts && image.None? ==>
              e == Some(NoReceiptImage)
  {
    if id !in transactions then Some(TransactionNotFound)
    else if transactions[id].paymentMethod != "wallet" then Some(NotWalletPayment)
    else if id in receipts then Some(ReceiptAlreadyUploaded)
    else if image.None? then Some(NoReceiptImage)
    else None
  }

  /** The checks of `update_transaction_status`: only an administrator may set one of the three statuses. */
  function StatusChangeError(transactions: map<string, Transaction>, id: string,
                             role: Option<string>, status: Option<string>): (e: Option<ApiError>)
    ensures e.None? <==> id in transactions && role == Some("admin")
                         && status.Some? && ParseStatus(status.value).Some?
    ensures id !in transactions ==> e == Some(TransactionNotFound)
    ensures id in transactions && role.None? ==> e == Some(NoProfile)
    ensures id in transactions && role.Some? && role.value != "admin" ==> e == Some(PermissionDenied)
    ensures id in transactions && role == Some("admin") && (status.None? || ParseStatus(status.value).None?) ==>
              e == Some(InvalidStatus)
  {
    if id !in transactions then Some(TransactionNotFound)
    else if role.None? then Some(NoProfile)
    else if role.value != "admin" then Some(PermissionDenied)
    else if status.None? || ParseStatus(status.value).None? then Some(InvalidStatus)
    else None
  }

  // ---------------------------------------------------------------------
  // The server's state

  /** The session cart and the tables the views read and write. */
  class PosBackend {
    var cart: seq<CartLine>
    var products: map<int, Product>
    var transactions: map<string, Transaction>
    var receipts: map<string, EWalletReceipt>

    predicate Valid()
      reads this
    {
      CartWellFormed(cart) && KeyedById(products)
    }

    /** A new session (`request.session.get('cart', [])`) over the given product table. */
    constructor (products: map<int, Product>)
      requires KeyedById(products)
      ensures Valid()
      ensures cart == [] && this.products == products && transactions == map[] && receipts == map[]
    {
      cart := [];
      this.products := products;
      transactions := map[];
      receipts := map[];
    }

    /** `add_to_cart`. */
    method AddToCart(productId: int, quantity: int) returns (r: Result<seq<CartLine>, ApiError>)
      requires Valid()
      modifies this`cart
      ensures Valid()
      ensures r == CartAfterAdd(old(cart), products, productId, quantity)
      ensures cart == if r.Ok? then r.value else old(cart)
    {
      if quantity <= 0 {
        return Err(InvalidQuantity);
      }
      if productId !in products {
        return Err(ProductNotFound);
      }
      var product := products[productId];
      if product.stock < quantity {
        return Err(NotEnoughStock);
      }
      var found := false;
      var i := 0;
      while i < |cart|
        invariant 0 <= i <= |cart|
        invariant cart == old(cart)
        invariant forall j :: 0 <= j < i ==> cart[j].id != productId
      {
        if cart[i].id == productId {
          assert LineIndex(cart, productId) == i;
          cart := cart[i := cart[i].(quantity := cart[i].quantity + quantity)];
          found := true;
          break;
        }
        i := i + 1;
      }
      if !found {
        assert LineIndex(cart, productId) == |cart|;
        cart := cart + [NewLine(product, quantity)];
      }
      r := Ok(cart);
    }

    /** `update_cart_item`. */
    method UpdateCartItem(productId: int, quantity: int) returns (r: Result<seq<CartLine>, ApiError>)
      requires Valid()
      modifies this`cart
      ensures Valid()
      ensures r == CartAfterUpdate(old(cart), products, productId, quantity)
      ensures cart == if r.Ok? then r.value else old(cart)
    {
      if quantity <= 0 {
        return Err(InvalidQuantity);
      }
      var found := false;
      var i := 0;
      while i < |cart|
        invariant 0 <= i <= |cart|
        invariant cart == old(cart)
        invariant forall j :: 0 <= j < i ==> cart[j].id != productId
      {
        if cart[i].id == productId {
          assert LineIndex(cart, productId) == i;
          if productId in products && products[productId].stock < quantity {
            return Err(NotEnoughStock);
          }
          cart := cart[i := cart[i].(quantity := quantity)];
          found := true;
          break;
        }
        i := i + 1;
      }
      if !found {
        assert LineIndex(cart, productId) == |cart|;
        return Err(NotInCart);
      }
      r := Ok(cart);
    }

    /** `remove_from_cart`: always answers with the new cart. */
    method RemoveFromCart(productId: int) returns (r: seq<CartLine>)
      requires Valid()
      modifies this`cart
      ensures Valid()
      ensures cart == CartAfterRemove(old(cart), productId) && r == cart
    {
      cart := CartAfterRemove(cart, productId);
      r := cart;
    }

    /** `clear_cart`. */
    method ClearCart()
      requires Valid()
      modifies this`cart
      ensures Valid()
      ensures cart == []
    {
      cart := [];
    }

    /**
     * `create_transaction`, with the new transaction's id, the cashier and
     * the clock as parameters. An empty cart is refused with nothing
     * created. Otherwise the transaction is recorded as pending with one item
     * per line, every product still in the table loses the quantity sold,
     * and the cart is emptied.
     */
    method CreateTransaction(paymentMethod: string, contact: string, id: string, cashier: string, now: int)
      returns (r: Result<Transaction, ApiError>)
      requires Valid()
      modifies this`cart, this`products, this`transactions
      ensures Valid()
      ensures old(cart) == [] ==> r == Err(CartEmpty)
      ensures old(cart) != [] && id in old(transactions) ==> r == Err(IdTaken)
      ensures r.Err? ==> cart == old(cart) && products == old(products) && transactions == old(transactions)
      ensures r.Ok? <==> old(cart) != [] && id !in old(transactions)
      ensures r.Ok? ==>
        && r.value == NewTransaction(old(cart), id, cashier, now, paymentMethod, contact)
        && transactions == old(transactions)[id := r.value]
        && products == StockAfterSale(old(products), old(cart))
        && cart == []
    {
      var lines := cart;
      if lines == [] {
        return Err(CartEmpty);
      }
      if id in transactions {
        return Err(IdTaken);
      }
      var total := CartTotal(lines);
      var created := Transaction(id, cashier, now, total, Pending, paymentMethod, contact, []);
      var table := transactions;
      var stock := products;
      transactions := table[id := created];
      var items: seq<TransactionItem> := [];
      var i := 0;
      while i < |lines|
        invariant 0 <= i <= |lines|
        invariant QuantitiesNonNegative(lines[..i]) && items == ItemsOf(lines[..i])
        invariant transactions == table[id := created.(items := items)]
        invariant products == StockAfterSale(stock, lines[..i])
        invariant KeyedById(products)
      {
        var line := lines[i];
        SaleStep(stock, lines, i);
        SellLineKeepsKeys(products, line);
        items := items + [ItemOf(line)];
        transactions := table[id := created.(items := items)];
        products := SellLine(products, line);
        i := i + 1;
      }
      assert lines[..i] == lines;
      var recorded := created.(items := items);
      assert recorded == NewTransaction(lines, id, cashier, now, paymentMethod, contact);
      cart := [];
      r := Ok(recorded);
    }

    /**
     * `upload_ewallet_receipt`, with the uploaded file (if any) and the clock
     * as parameters. On success exactly one receipt is attached and the
     * transaction becomes completed; on any error nothing changes.
     */
    method UploadEwalletReceipt(id: string, image: Option<string>, now: int) returns (r: Reply)
      modifies this`transactions, this`receipts
      ensures r.Failed? <==> ReceiptUploadError(old(transactions), old(receipts), id, image).Some?
      ensures r.Failed? ==> r.error == ReceiptUploadError(old(transactions), old(receipts), id, image).value
                            && transactions == old(transactions) && receipts == old(receipts)
      ensures r.Success? ==>
        && receipts == old(receipts)[id := EWalletReceipt(image.value, now)]
        && transactions == old(transactions)[id := old(transactions)[id].(status := Completed)]
    {
      if id !in transactions {
        return Failed(TransactionNotFound);
      }
      var transaction := transactions[id];
      if transaction.paymentMethod != "wallet" {
        return Failed(NotWalletPayment);
      }
      if id in receipts {
        return Failed(ReceiptAlreadyUploaded);
      }
      if image.None? {
        return Failed(NoReceiptImage);
      }
      receipts := receipts[id := EWalletReceipt(image.value, now)];
      transactions := transactions[id := transaction.(status := Completed)];
      r := Success;
    }

    /**
     * `update_transaction_status`, with the requesting user's role (`None`
     * when the user has no profile) and the posted status as parameters.
     */
    method UpdateTransactionStatus(id: string, role: Option<string>, status: Option<string>) returns (r: Reply)
      modifies this`transactions
      ensures r.Failed? <==> StatusChangeError(old(transactions), id, role, status).Some?
      ensures r.Failed? ==> r.error == StatusChangeError(old(transactions), id, role, status).value
                            && transactions == old(transactions)
      ensures r.Success? ==>
        transactions == old(transactions)[id := old(transactions)[id].(status := ParseStatus(status.value).value)]
    {
      if id !in transactions {
        return Failed(TransactionNotFound);
      }
      var transaction := transactions[id];
      if role.None? {
        return Failed(NoProfile);
      }
      if role.value != "admin" {
        return Failed(PermissionDenied);
      }
      if status.None? || ParseStatus(status.value).None? {
        return Failed(InvalidStatus);
      }
      transactions := transactions[id := transaction.(status := ParseStatus(status.value).value)];
      r := Success;
    }
  }
}
