/**
 * The cashier's screen of the React client (src/pages/POS.tsx): a cart kept
 * in the page's state, the choice of payment method, and the payment that
 * records a transaction in the browser's local store. The cart updaters are
 * pure functions of the old cart; the handlers are methods on `PointOfSale`.
 */
module PosPage {
  import opened Wrappers
  import opened StringUtil
  import opened Seqs
  import opened ClientTypes

  predicate InCart(cart: seq<Product>, id: int) {
    exists i :: 0 <= i < |cart| && cart[i].id == id
  }

  predicate IdsUnique(cart: seq<Product>) {
    forall i, j :: 0 <= i < j < |cart| ==> cart[i].id != cart[j].id
  }

  predicate QuantitiesPositive(cart: seq<Product>) {
    forall i :: 0 <= i < |cart| ==> cart[i].quantity > 0
  }

  /** `cart.reduce((sum, item) => sum + item.price * item.quantity, 0)`. */
  function Total(cart: seq<Product>): int {
    if cart == [] then 0 else Total(cart[..|cart| - 1]) + cart[|cart| - 1].price * cart[|cart| - 1].quantity
  }

  /** The `map` of `addToCart`: every line of product `id` gets one more. */
  function IncrementLines(cart: seq<Product>, id: int): (r: seq<Product>)
    ensures |r| == |cart|
    ensures forall i :: 0 <= i < |cart| ==>
      r[i] == if cart[i].id == id then cart[i].(quantity := cart[i].quantity + 1) else cart[i]
  {
    seq(|cart|, i requires 0 <= i < |cart| =>
      if cart[i].id == id then cart[i].(quantity := cart[i].quantity + 1) else cart[i])
  }

  /**
   * `addToCart`'s updater: a product already in the cart gets one more of
   * it and nothing else changes; a new product is appended with quantity 1.
   */
  function AddOrIncrement(cart: seq<Product>, product: Product): (r: seq<Product>)
    ensures InCart(cart, product.id) ==>
      && |r| == |cart|
      && forall i :: 0 <= i < |cart| ==>
           && r[i].(quantity := 0) == cart[i].(quantity := 0)
           && r[i].quantity == cart[i].quantity + (if cart[i].id == product.id then 1 else 0)
    ensures !InCart(cart, product.id) ==> r == cart + [product.(quantity := 1)]
    ensures IdsUnique(cart) ==> IdsUnique(r)
    ensures QuantitiesPositive(cart) ==> QuantitiesPositive(r)
  {
    if InCart(cart, product.id) then IncrementLines(cart, product.id)
    else cart + [product.(quantity := 1)]
  }

  /** The prices of the lines of product `id`, added up. */
  function PricesOf(cart: seq<Product>, id: int): int {
    if cart == [] then 0
    else PricesOf(cart[..|cart| - 1], id) + (if cart[|cart| - 1].id == id then cart[|cart| - 1].price else 0)
  }

  /** One more of a product raises the total by the price of each of its lines. */
  lemma {:induction false} TotalAfterIncrement(cart: seq<Product>, id: int)
    ensures Total(IncrementLines(cart, id)) == Total(cart) + PricesOf(cart, id)
    decreases |cart|
  {
    if cart != [] {
      var front, last := cart[..|cart| - 1], cart[|cart| - 1];
      var r := IncrementLines(cart, id);
      assert r[..|r| - 1] == IncrementLines(front, id);
      TotalAfterIncrement(front, id);
      assert last.price * (last.quantity + 1) == last.price * last.quantity + last.price;
    }
  }

  /** With one line per product, the prices of a product's lines are the price on its line. */
  lemma {:induction false} PricesOfSingleLine(cart: seq<Product>, k: nat)
    requires IdsUnique(cart) && k < |cart|
    ensures PricesOf(cart, cart[k].id) == cart[k].price
    decreases |cart|
  {
    var front, last := cart[..|cart| - 1], cart[|cart| - 1];
    if k < |cart| - 1 {
      assert front[k] == cart[k];
      PricesOfSingleLine(front, k);
    } else {
      forall j | 0 <= j < |front|
        ensures front[j].id != last.id
      {
        assert cart[j] == front[j];
      }
      NoPrices(front, last.id);
    }
  }

  lemma {:induction false} NoPrices(cart: seq<Product>, id: int)
    requires forall j :: 0 <= j < |cart| ==> cart[j].id != id
    ensures PricesOf(cart, id) == 0
    decreases |cart|
  {
    if cart != [] {
      NoPrices(cart[..|cart| - 1], id);
    }
  }

  /** Adding a product to a cart with one line per product raises the total by one unit's price. */
  lemma TotalAfterAdd(cart: seq<Product>, product: Product)
    requires IdsUnique(cart)
    ensures InCart(cart, product.id) ==>
      forall k :: 0 <= k < |cart| && cart[k].id == product.id ==>
        Total(AddOrIncrement(cart, product)) == Total(cart) + cart[k].price
    ensures !InCart(cart, product.id) ==> Total(AddOrIncrement(cart, product)) == Total(cart) + product.price
  {
    if InCart(cart, product.id) {
      TotalAfterIncrement(cart, product.id);
      forall k | 0 <= k < |cart| && cart[k].id == product.id
        ensures PricesOf(cart, product.id) == cart[k].price
      {
        PricesOfSingleLine(cart, k);
      }
    } else {
      var r := cart + [product.(quantity := 1)];
      assert r[..|r| - 1] == cart;
    }
  }

  /** The `map` of `updateQuantity`: the change applies only when the result stays positive. */
  function ApplyChange(cart: seq<Product>, id: int, change: int): (r: seq<Product>)
    ensures |r| == |cart|
    ensures forall i :: 0 <= i < |cart| ==>
      r[i] == if cart[i].id == id && cart[i].quantity + change > 0
              then cart[i].(quantity := cart[i].quantity + change) else cart[i]
  {
    seq(|cart|, i requires 0 <= i < |cart| =>
      if cart[i].id == id && cart[i].quantity + change > 0 then cart[i].(quantity := cart[i].quantity + change)
      else cart[i])
  }

  /**
   * `updateQuantity`'s updater. Every line left has a positive quantity, and
   * a cart whose quantities are all positive loses no line: a change that
   * would bring a line to zero or below is not applied.
   */
  function ChangeQuantity(cart: seq<Product>, id: int, change: int): (r: seq<Product>)
    ensures QuantitiesPositive(r)
    ensures QuantitiesPositive(cart) ==>
      && |r| == |cart|
      && forall i :: 0 <= i < |cart| ==>
           && r[i].(quantity := 0) == cart[i].(quantity := 0)
           && r[i].quantity == (if cart[i].id == id && cart[i].quantity + change > 0
                                then cart[i].quantity + change else cart[i].quantity)
    ensures QuantitiesPositive(cart) && IdsUnique(cart) ==> IdsUnique(r)
  {
    var mapped := ApplyChange(cart, id, change);
    var positive := (p: Product) => p.quantity > 0;
    if QuantitiesPositive(cart) then
      FilterKeepsAll(mapped, positive);
      Filter(mapped, positive)
    else
      Filter(mapped, positive)
  }

  /** Taking one away from a line that holds one leaves the line as it is. */
  lemma DecrementKeepsLastUnit(cart: seq<Product>, k: nat)
    requires QuantitiesPositive(cart) && k < |cart| && cart[k].quantity == 1
    ensures |ChangeQuantity(cart, cart[k].id, -1)| == |cart|
    ensures ChangeQuantity(cart, cart[k].id, -1)[k] == cart[k]
  {
  }

  /** `removeFromCart`'s updater: the product's lines go, the others stay in order. */
  function RemoveLines(cart: seq<Product>, id: int): (r: seq<Product>)
    ensures forall p :: p in r <==> p in cart && p.id != id
    ensures SubsequenceOf(r, cart)
    ensures QuantitiesPositive(cart) ==> QuantitiesPositive(r)
    ensures IdsUnique(cart) ==> IdsUnique(r)
  {
    var keep := (p: Product) => p.id != id;
    FilterIsSubsequence(cart, keep);
    if QuantitiesPositive(cart) && IdsUnique(cart) then
      FilterKeepsEach(cart, keep, (p: Product) => p.quantity > 0);
      FilterKeepsPairwise(cart, keep, (a: Product, b: Product) => a.id != b.id);
      Filter(cart, keep)
    else if QuantitiesPositive(cart) then
      FilterKeepsEach(cart, keep, (p: Product) => p.quantity > 0);
      Filter(cart, keep)
    else if IdsUnique(cart) then
      FilterKeepsPairwise(cart, keep, (a: Product, b: Product) => a.id != b.id);
      Filter(cart, keep)
    else
      Filter(cart, keep)
  }

  /** The items of the recorded transaction: name, quantity and price of each line. */
  function ItemsFor(cart: seq<Product>): (items: seq<TransactionItem>)
    ensures |items| == |cart|
    ensures forall i :: 0 <= i < |cart| ==> items[i] == TransactionItem(cart[i].name, cart[i].quantity, cart[i].price)
  {
    seq(|cart|, i requires 0 <= i < |cart| => TransactionItem(cart[i].name, cart[i].quantity, cart[i].price))
  }

  /** The sum of price times quantity over a transaction's items. */
  function ItemsTotal(items: seq<TransactionItem>): int {
    if items == [] then 0 else ItemsTotal(items[..|items| - 1]) + items[|items| - 1].price * items[|items| - 1].quantity
  }

  lemma {:induction false} TotalMatchesItems(cart: seq<Product>)
    ensures Total(cart) == ItemsTotal(ItemsFor(cart))
    decreases |cart|
  {
    if cart != [] {
      var front := cart[..|cart| - 1];
      TotalMatchesItems(front);
      var items := ItemsFor(cart);
      assert items[..|items| - 1] == ItemsFor(front);
    }
  }

  /**
   * The record `handlePayment` stores: cash stays pending and any other
   * method is completed; a card payment keeps only the last four characters
   * of the number and the expiry date, never the CVV.
   */
  function BuildTransaction(cart: seq<Product>, paymentMethod: string, card: CardDetails,
                            id: string, timestamp: string): (t: Transaction)
    ensures t.status == Pending <==> paymentMethod == "cash"
    ensures t.status == Completed <==> paymentMethod != "cash"
    ensures t.paymentMethod == paymentMethod && t.id == id && t.timestamp == timestamp
    ensures t.total == ItemsTotal(t.items)
    ensures |t.items| == |cart|
    ensures forall i :: 0 <= i < |cart| ==> t.items[i] == TransactionItem(cart[i].name, cart[i].quantity, cart[i].price)
    ensures t.cardDetails.Some? <==> paymentMethod == "card"
    ensures t.cardDetails.Some? ==>
      var kept := t.cardDetails.value.cardNumber;
      && |kept| == (if |card.cardNumber| < 4 then |card.cardNumber| else 4)
      && kept == card.cardNumber[|card.cardNumber| - |kept|..]
      && t.cardDetails.value.expiryDate == card.expiryDate
  {
    TotalMatchesItems(cart);
    Transaction(
      id,
      timestamp,
      Total(cart),
      if paymentMethod == "cash" then Pending else Completed,
      paymentMethod,
      ItemsFor(cart),
      if paymentMethod == "card" then Some(StoredCard(LastFour(card.cardNumber), card.expiryDate)) else None)
  }

  /** JavaScript's truthiness of `selectedPaymentMethod`: `null` and "" are false. */
  predicate MethodChosen(m: Option<string>) {
    m.Some? && m.value != ""
  }

  /** What a press on the pay button leads to. */
  datatype PaymentOutcome = MissingCardDetails | NoPaymentMethod | CartIsEmpty | Paid(transaction: Transaction)

  const EmptyCard: CardDetails := CardDetails("", "", "")

  /** Whether all three card fields are filled in. */
  predicate CardFilled(card: CardDetails) {
    card.cardNumber != "" && card.expiryDate != "" && card.cvv != ""
  }

  /** The page's state, with the local store's `transactions` list. */
  class PointOfSale {
    var cart: seq<Product>
    var paymentComplete: bool
    var selectedMethod: Option<string>
    var showCardForm: bool
    var showEWalletForm: bool
    var cardDetails: CardDetails
    var stored: seq<Transaction>

    /** The page as first rendered, over what the local store already holds. */
    constructor (stored: seq<Transaction>)
      ensures cart == [] && !paymentComplete && selectedMethod == None
      ensures !showCardForm && !showEWalletForm && cardDetails == EmptyCard && this.stored == stored
    {
      cart := [];
      paymentComplete := false;
      selectedMethod := None;
      showCardForm := false;
      showEWalletForm := false;
      cardDetails := EmptyCard;
      this.stored := stored;
    }

    /** `addToCart`. */
    method AddToCart(product: Product)
      modifies this`cart, this`paymentComplete, this`selectedMethod
      ensures cart == AddOrIncrement(old(cart), product)
      ensures !paymentComplete && selectedMethod == None
    {
      paymentComplete := false;
      selectedMethod := None;
      cart := AddOrIncrement(cart, product);
    }

    /** `updateQuantity`. */
    method UpdateQuantity(productId: int, change: int)
      modifies this`cart, this`paymentComplete, this`selectedMethod
      ensures cart == ChangeQuantity(old(cart), productId, change)
      ensures !paymentComplete && selectedMethod == None
    {
      paymentComplete := false;
      selectedMethod := None;
      cart := ChangeQuantity(cart, productId, change);
    }

    /** `removeFromCart`. */
    method RemoveFromCart(productId: int)
      modifies this`cart, this`paymentComplete, this`selectedMethod
      ensures cart == RemoveLines(old(cart), productId)
      ensures !paymentComplete && selectedMethod == None
    {
      paymentComplete := false;
      selectedMethod := None;
      cart := RemoveLines(cart, productId);
    }

    /** `handlePaymentMethodSelect`: the card form shows only for "card", the e-wallet form only for "wallet". */
    method HandlePaymentMethodSelect(methodId: string)
      modifies this`selectedMethod, this`showCardForm, this`showEWalletForm
      ensures selectedMethod == Some(methodId)
      ensures showCardForm <==> methodId == "card"
      ensures showEWalletForm <==> methodId == "wallet"
    {
      selectedMethod := Some(methodId);
      showCardForm := methodId == "card";
      showEWalletForm := methodId == "wallet";
    }

    /**
     * `handlePayment`, with the random id and the clock as parameters. With no
     * method chosen or an empty cart nothing is stored; otherwise exactly
     * one transaction is appended and the payment is complete.
     */
    method HandlePayment(id: string, timestamp: string) returns (outcome: PaymentOutcome)
      modifies this`stored, this`paymentComplete, this`showCardForm, this`showEWalletForm
      ensures !MethodChosen(old(selectedMethod)) ==> outcome == NoPaymentMethod
      ensures MethodChosen(old(selectedMethod)) && cart == [] ==> outcome == CartIsEmpty
      ensures !outcome.Paid? ==>
        && stored == old(stored) && paymentComplete == old(paymentComplete)
        && showCardForm == old(showCardForm) && showEWalletForm == old(showEWalletForm)
      ensures outcome.Paid? <==> MethodChosen(selectedMethod) && cart != []
      ensures outcome.Paid? ==>
        && outcome.transaction == BuildTransaction(cart, selectedMethod.value, cardDetails, id, timestamp)
        && stored == old(stored) + [outcome.transaction]
        && paymentComplete && !showCardForm && !showEWalletForm
    {
      if !MethodChosen(selectedMethod) {
        return NoPaymentMethod;
      }
      if |cart| == 0 {
        return CartIsEmpty;
      }
      var transaction := BuildTransaction(cart, selectedMethod.value, cardDetails, id, timestamp);
      stored := stored + [transaction];
      paymentComplete := true;
      showCardForm := false;
      showEWalletForm := false;
      outcome := Paid(transaction);
    }

    /** `handleCardSubmit`: all three card fields must be filled in before the payment is attempted. */
    method HandleCardSubmit(id: string, timestamp: string) returns (outcome: PaymentOutcome)
      modifies this`stored, this`paymentComplete, this`showCardForm, this`showEWalletForm
      ensures cardDetails.cardNumber == "" || cardDetails.expiryDate == "" || cardDetails.cvv == "" ==>
        outcome == MissingCardDetails
      ensures CardFilled(cardDetails) && !MethodChosen(selectedMethod) ==> outcome == NoPaymentMethod
      ensures CardFilled(cardDetails) && MethodChosen(selectedMethod) && cart == [] ==> outcome == CartIsEmpty
      ensures !outcome.Paid? ==>
        && stored == old(stored) && paymentComplete == old(paymentComplete)
        && showCardForm == old(showCardForm) && showEWalletForm == old(showEWalletForm)
      ensures outcome.Paid? <==> CardFilled(cardDetails) && MethodChosen(selectedMethod) && cart != []
      ensures outcome.Paid? ==>
        && outcome.transaction == BuildTransaction(cart, selectedMethod.value, cardDetails, id, timestamp)
        && stored == old(stored) + [outcome.transaction]
        && paymentComplete && !showCardForm && !showEWalletForm
    {
      if cardDetails.cardNumber == "" || cardDetails.expiryDate == "" || cardDetails.cvv == "" {
        return MissingCardDetails;
      }
      outcome := HandlePayment(id, timestamp);
    }

    /** `resetTransaction`: a new sale with an empty cart and an empty card form. */
    method ResetTransaction()
      modifies this`cart, this`paymentComplete, this`selectedMethod, this`cardDetails
      ensures cart == [] && !paymentComplete && selectedMethod == None && cardDetails == EmptyCard
    {
      cart := [];
      paymentComplete := false;
      selectedMethod := None;
      cardDetails := EmptyCard;
    }
  }
}
