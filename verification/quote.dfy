/** The quote request assembled on submission: the presence check on the
    customer form, the line items with tag-free names and subtotals, and the
    quote total. */
module Quote {
  import opened Catalog
  import opened Cart
  import opened Markup

  /** `!name || !email || !phone` fails: the three required fields are all
      non-empty. The message is optional. */
  predicate IsComplete(form: QuoteForm)
  {
    form.name != "" && form.email != "" && form.phone != ""
  }

  datatype QuoteItem = QuoteItem(
    productNo: int,
    productName: string,
    productCode: string,
    price: int,
    quantity: int,
    subtotal: int)

  /** The snapshot the submit handler logs. The request date comes from
      the clock, so it is a parameter here. */
  datatype QuoteRequest = QuoteRequest(
    customer: QuoteForm,
    items: seq<QuoteItem>,
    totalAmount: int,
    requestDate: string)

  function LineItem(item: CartItem): QuoteItem
  {
    QuoteItem(item.product.productNo, StripTags(item.product.productName),
              item.product.productCode, item.product.price, item.quantity, Subtotal(item))
  }

  /** One line item per cart entry, in cart order. */
  function LineItems(cart: seq<CartItem>): (items: seq<QuoteItem>)
    ensures |items| == |cart|
    ensures forall i :: 0 <= i < |items| ==>
      && items[i].productNo == cart[i].product.productNo
      && items[i].productCode == cart[i].product.productCode
      && items[i].price == cart[i].product.price
      && items[i].quantity == cart[i].quantity
      && items[i].subtotal == cart[i].product.price * cart[i].quantity
      && items[i].productName == StripTags(cart[i].product.productName)
      && TagFree(items[i].productName)
      && |items[i].productName| <= |cart[i].product.productName|
  {
    StripTagsAlwaysTagFree();
    seq(|cart|, i requires 0 <= i < |cart| => LineItem(cart[i]))
  }

  /** The sum of the line items' subtotals, folded from the left. */
  function SumSubtotals(items: seq<QuoteItem>): int
  {
    if items == [] then 0 else SumSubtotals(items[..|items| - 1]) + items[|items| - 1].subtotal
  }

  /** The line items add up to the cart's total amount. */
  lemma {:induction false} LineItemsTotal(cart: seq<CartItem>)
    ensures SumSubtotals(LineItems(cart)) == Total(cart)
  {
    if cart != [] {
      var front := cart[..|cart| - 1];
      LineItemsTotal(front);
      assert LineItems(cart)[..|cart| - 1] == LineItems(front);
    }
  }

  /** The quote for `cart` on behalf of `form`: it keeps the customer's form,
      lists every entry, and its total is both the cart's total amount and the
      sum of its line items. */
  function BuildQuote(form: QuoteForm, cart: seq<CartItem>, requestDate: string): (q: QuoteRequest)
    ensures q.customer == form && q.requestDate == requestDate
    ensures q.items == LineItems(cart)
    ensures q.totalAmount == Total(cart)
    ensures q.totalAmount == SumSubtotals(q.items)
  {
    LineItemsTotal(cart);
    QuoteRequest(form, LineItems(cart), Total(cart), requestDate)
  }
}
