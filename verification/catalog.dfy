/** The value types the product table works with: products and categories as
    fetched, cart entries, and the customer form of a quote request. */
module Catalog {

  datatype Option<T> = None | Some(value: T)

  /** A product as the products endpoint returns it. The price, a decimal
      string upstream, is taken here as an already parsed amount in won. */
  datatype Product = Product(
    productNo: int,
    productName: string,
    price: int,
    display: string,
    selling: string,
    detailImage: string,
    productCode: string,
    createdDate: string)

  datatype Category = Category(
    categoryNo: int,
    categoryName: string,
    categoryDepth: int,
    parentCategoryNo: int)

  /** One line of the quote cart: the product as it was added and how many. */
  datatype CartItem = CartItem(product: Product, quantity: int)

  datatype QuoteForm = QuoteForm(name: string, email: string, phone: string, message: string)

  /** The form as the component creates it and as it resets it after a submission. */
  const EMPTY_FORM := QuoteForm("", "", "", "")

  /** The four inputs of the quote dialog. */
  datatype FormField = Name | Email | Phone | Message
}
