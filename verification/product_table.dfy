/** The product table component: the state its handlers update step by step.
    Each handler is a method; the pure cart and quote functions say what it
    computes. */
module ProductTableState {
  import opened Catalog
  import opened Categories
  import opened Cart
  import opened Quote

  /** All state fields of the component at one moment. */
  datatype TableState = TableState(
    products: seq<Product>,
    categories: seq<Category>,
    loading: bool,
    quantities: map<int, int>,
    cart: seq<CartItem>,
    isModalOpen: bool,
    formData: QuoteForm,
    isSubmitting: bool)

  class ProductTable {
    var products: seq<Product>
    var categories: seq<Category>
    var loading: bool
    var quantities: map<int, int>
    var cart: seq<CartItem>
    var isModalOpen: bool
    var formData: QuoteForm
    var isSubmitting: bool

    function State(): TableState
      reads this
    {
      TableState(products, categories, loading, quantities, cart, isModalOpen, formData, isSubmitting)
    }

    /** The cart holds at most one entry per product, every quantity in the cart
        and in the row selectors is at least 1. */
    predicate Valid()
      reads this
    {
      UniqueIds(cart) && PositiveQuantities(cart) && PositiveSelectors(quantities)
    }

    /** The state on mount: nothing fetched yet and the table loading. */
    constructor ()
      ensures Valid()
      ensures State() == TableState([], [], true, map[], [], false, EMPTY_FORM, false)
    {
      products, categories, loading := [], [], true;
      quantities, cart := map[], [];
      isModalOpen, formData, isSubmitting := false, EMPTY_FORM, false;
    }

    /** The category fetch completed. A response with a category list keeps its
        top-level categories; a missing list or a failed fetch changes nothing. */
    method ReceiveCategories(response: Option<seq<Category>>)
      requires Valid()
      modifies this
      ensures Valid()
      ensures response.Some? ==> State() == old(State()).(categories := TopLevel(response.value))
      ensures response.None? ==> State() == old(State())
    {
      if response.Some? {
        categories := TopLevel(response.value);
      }
    }

    /** A product fetch starts. */
    method BeginProductFetch()
      requires Valid()
      modifies this
      ensures Valid()
      ensures State() == old(State()).(loading := true)
    {
      loading := true;
    }

    /** The product fetch completed. A response with a product list replaces the
        result set and resets every row selector to 1; in every case loading
        ends. */
    method ReceiveProducts(response: Option<seq<Product>>)
      requires Valid()
      modifies this
      ensures Valid()
      ensures response.None? ==> State() == old(State()).(loading := false)
      ensures response.Some? ==>
        && quantities.Keys == ProductNos(response.value)
        && (forall id :: id in quantities ==> quantities[id] == 1)
        && State() == old(State()).(products := response.value, quantities := quantities, loading := false)
    {
      if response.Some? {
        products := response.value;
        quantities := InitialQuantities(response.value);
      }
      loading := false;
    }

    /** A row's minus or plus button. */
    method UpdateQuantity(id: int, delta: int)
      requires Valid()
      modifies this
      ensures Valid()
      ensures State() == old(State()).(quantities := Cart.UpdateQuantity(old(quantities), id, delta))
      ensures quantities[id] == Max(1, SelectedQuantity(old(quantities), id) + delta)
    {
      quantities := Cart.UpdateQuantity(quantities, id, delta);
    }

    /** A row's add button: the row's chosen quantity goes into the cart and the
        row selector returns to 1. */
    method AddToCart(product: Product)
      requires Valid()
      modifies this
      ensures Valid()
      ensures State() == old(State()).(
        cart := Cart.AddToCart(old(cart), product, SelectedQuantity(old(quantities), product.productNo)),
        quantities := old(quantities)[product.productNo := 1])
      ensures SelectedQuantity(old(quantities), product.productNo) >= 1
      ensures SelectedQuantity(quantities, product.productNo) == 1
    {
      var qty := SelectedQuantity(quantities, product.productNo);
      cart := Cart.AddToCart(cart, product, qty);
      quantities := quantities[product.productNo := 1];
    }

    /** The dialog's delete button for one entry. */
    method RemoveFromCart(id: int)
      requires Valid()
      modifies this
      ensures Valid()
      ensures State() == old(State()).(cart := Cart.RemoveFromCart(old(cart), id))
      ensures !HasProduct(cart, id)
    {
      RemoveKeepsInvariant(cart, id);
      cart := Cart.RemoveFromCart(cart, id);
    }

    /** The dialog's minus or plus button for one entry. */
    method UpdateCartQuantity(id: int, delta: int)
      requires Valid()
      modifies this
      ensures Valid()
      ensures State() == old(State()).(cart := Cart.UpdateCartQuantity(old(cart), id, delta))
    {
      cart := Cart.UpdateCartQuantity(cart, id, delta);
    }

    /** The summary bar's reset button. */
    method ClearCart()
      requires Valid()
      modifies this
      ensures Valid()
      ensures State() == old(State()).(cart := [])
      ensures Total(cart) == 0 && TotalQuantity(cart) == 0
    {
      cart := [];
    }

    /** The summary bar's quote button; the bar is shown only while the cart has
        an entry. */
    method OpenQuoteModal()
      requires Valid() && |cart| > 0
      modifies this
      ensures Valid()
      ensures State() == old(State()).(isModalOpen := true)
    {
      isModalOpen := true;
    }

    /** The dialog's close and cancel buttons. */
    method CloseQuoteModal()
      requires Valid()
      modifies this
      ensures Valid()
      ensures State() == old(State()).(isModalOpen := false)
    {
      isModalOpen := false;
    }

    /** Typing into one of the dialog's inputs. */
    method EditForm(field: FormField, value: string)
      requires Valid()
      modifies this
      ensures Valid()
      ensures State() == old(State()).(formData :=
        match field
        case Name => old(formData).(name := value)
        case Email => old(formData).(email := value)
        case Phone => old(formData).(phone := value)
        case Message => old(formData).(message := value))
    {
      match field
      case Name => formData := formData.(name := value);
      case Email => formData := formData.(email := value);
      case Phone => formData := formData.(phone := value);
      case Message => formData := formData.(message := value);
    }

    /** The dialog's submit button, up to the simulated delay. The button is in
        the dialog and disabled while a submission is in progress. With a
        required field empty nothing changes; otherwise the submission is marked
        in progress and the quote for the current cart is assembled. */
    method BeginSubmitQuote(requestDate: string) returns (quote: Option<QuoteRequest>)
      requires Valid() && isModalOpen && !isSubmitting
      modifies this
      ensures Valid()
      ensures !IsComplete(old(formData)) ==> quote.None? && State() == old(State())
      ensures IsComplete(old(formData)) ==>
        && quote == Some(BuildQuote(old(formData), old(cart), requestDate))
        && State() == old(State()).(isSubmitting := true)
    {
      if !IsComplete(formData) {
        return None;
      }
      isSubmitting := true;
      quote := Some(BuildQuote(formData, cart, requestDate));
    }

    /** The rest of the submit handler, after the delay: cart, form, dialog and
        the in-progress flag are all reset. */
    method FinishSubmitQuote()
      requires Valid()
      modifies this
      ensures Valid()
      ensures State() == old(State()).(cart := [], formData := EMPTY_FORM, isModalOpen := false, isSubmitting := false)
    {
      cart := [];
      formData := EMPTY_FORM;
      isModalOpen := false;
      isSubmitting := false;
    }

    /** The whole submit handler when nothing happens during the delay. */
    method SubmitQuote(requestDate: string) returns (quote: Option<QuoteRequest>)
      requires Valid() && isModalOpen && !isSubmitting
      modifies this
      ensures Valid()
      ensures !IsComplete(old(formData)) ==> quote.None? && State() == old(State())
      ensures IsComplete(old(formData)) ==>
        && quote == Some(BuildQuote(old(formData), old(cart), requestDate))
        && State() == old(State()).(cart := [], formData := EMPTY_FORM, isModalOpen := false, isSubmitting := false)
    {
      quote := BeginSubmitQuote(requestDate);
      if quote.Some? {
        FinishSubmitQuote();
      }
    }
  }

  /** A visitor's session: after a fetch, a 500 won product is added with the
      selector raised to 3, then again with 2; the cart holds one entry of 5
      whose total is 2500. */
  method AddTwiceSession(p: Product)
    requires p.price == 500
  {
    ScenarioAddTwice(p);
    var table := new ProductTable();
    table.ReceiveProducts(Some([p]));
    assert p in [p];
    table.UpdateQuantity(p.productNo, 2);
    table.AddToCart(p);
    assert table.cart == Cart.AddToCart([], p, 3);
    table.UpdateQuantity(p.productNo, 1);
    table.AddToCart(p);
    assert table.cart == [CartItem(p, 5)];
    assert table.cart[..0] == [];
    assert Total(table.cart) == 2500;
  }

  /** Adding one product to an empty cart and pressing its delete button leaves
      the cart empty with a total of 0. */
  method AddRemoveSession(p: Product)
  {
    var table := new ProductTable();
    table.AddToCart(p);
    assert table.cart == [CartItem(p, 1)];
    table.RemoveFromCart(p.productNo);
    assert table.cart == [];
    assert Total(table.cart) == 0;
  }
}
