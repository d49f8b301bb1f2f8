/**
 * One store session: the component state of the storefront (catalog, basket,
 * search, checkout step, delivery details, product form) and the handlers
 * that replace it. `Next` is the reference transition for every user or
 * browser event; `StoreSession` holds the same state in mutable fields and
 * its handler methods are proved to move it exactly as `Next` does.
 */
module Session {
  import opened Domain
  import opened Text
  import Catalog
  import Basket
  import opened OrderMessage

  /** The action of the basket footer's button. */
  datatype FooterAction = Proceed | Confirm

  /**
   * The footer (total and button) is rendered only outside the success step
   * and with a non-empty basket; its button proceeds from `Idle` and
   * confirms from `Details`.
   */
  function FooterButton(step: CheckoutStep, cartSize: nat): (r: Option<FooterAction>)
    ensures r.Some? <==> step != Success && cartSize > 0
    ensures r == Some(Proceed) ==> step == Idle
    ensures r == Some(Confirm) ==> step == Details
  {
    if cartSize == 0 then None
    else match step
      case Idle => Some(Proceed)
      case Details => Some(Confirm)
      case Success => None
  }

  /**
   * The whole session state. `timerPending` stands for the callback scheduled
   * after a confirmation; `outbox` holds the order messages handed to the
   * chat link, oldest first.
   */
  datatype StoreState = StoreState(
    products: seq<Product>,
    cart: seq<CartItem>,
    searchQuery: string,
    selectedCategory: string,
    cartOpen: bool,
    checkoutStep: CheckoutStep,
    customerInfo: CustomerInfo,
    isLocating: bool,
    form: ProductForm,
    timerPending: bool,
    outbox: seq<string>)

  /** What can happen to a session: a user action, or a browser callback. */
  datatype Event =
    | Search(query: string)
    | PickCategory(category: string)
    | OpenBasket
    | CloseBasket
    | AddProduct(product: Product)
    | DeleteLine(lineId: Id)
    | TypeForm(newForm: ProductForm)
    | SaveForm(newId: Id)
    | DeleteProduct(productId: Id)
    | TypeDelivery(field: DeliveryField, value: string)
    | LocateRequested
    | LocateSucceeded(loc: Location)
    | LocateFailed
    | PressFooter
    | TimerFired

  /** The state a session starts in: the saved catalog if there is one, the seed catalog otherwise. */
  function Initial(saved: Option<seq<Product>>): StoreState {
    StoreState(
      if saved.Some? then saved.value else InitialProducts,
      [], "", AllCategories, false, Idle, EmptyCustomer, false, EmptyForm, false, [])
  }

  /**
   * What holds of every session: basket ids are distinct and quantities
   * positive, the price text of the form is empty or a numeral, and a
   * callback is pending exactly in the success step.
   */
  predicate Inv(s: StoreState) {
    Basket.DistinctIds(s.cart) && Basket.PositiveQuantities(s.cart)
    && Catalog.PriceTextOk(s.form.price)
    && (s.timerPending <==> s.checkoutStep == Success)
  }

  /**
   * A superset of the events the page can deliver in a state: a numeric
   * input yields only an empty text or a numeral, the footer button can be
   * pressed only while it is rendered, and the callback fires only when
   * scheduled. Other controls are shown only in some steps (line deletion in
   * idle, the delivery inputs and the location button in details), but they
   * are allowed in every state here; the invariant holds either way.
   */
  predicate Possible(s: StoreState, e: Event) {
    match e
    case TypeForm(f) => Catalog.PriceTextOk(f.price)
    case PressFooter => s.cartOpen && FooterButton(s.checkoutStep, |s.cart|).Some?
    case TimerFired => s.timerPending
    case _ => true
  }

  /** Confirming the order: the message goes out, the basket is emptied, the success step starts its timer. */
  function Confirmed(s: StoreState): StoreState {
    s.(outbox := s.outbox + [Message(s.customerInfo, s.cart)],
       cart := [], checkoutStep := Success, timerPending := true)
  }

  /** Saving the form: rejected when name or price is empty, otherwise the product is put first and the form is reset. */
  function Saved(s: StoreState, id: Id): StoreState
    requires Catalog.PriceTextOk(s.form.price)
  {
    if !Catalog.FormComplete(s.form) then s
    else s.(products := [Catalog.NewProduct(s.form, id)] + s.products, form := EmptyForm)
  }

  /** The reference transition of a session. */
  function Next(s: StoreState, e: Event): StoreState
    requires Catalog.PriceTextOk(s.form.price)
  {
    match e
    case Search(q) => s.(searchQuery := q)
    case PickCategory(c) => s.(selectedCategory := c)
    case OpenBasket => s.(cartOpen := true)
    case CloseBasket => s.(cartOpen := false)
    case AddProduct(p) => s.(cart := Basket.AddToCart(s.cart, p), cartOpen := true)
    case DeleteLine(id) => s.(cart := Basket.RemoveLine(s.cart, id))
    case TypeForm(f) => s.(form := f)
    case SaveForm(id) => Saved(s, id)
    case DeleteProduct(id) => s.(products := Catalog.RemoveProduct(s.products, id))
    case TypeDelivery(field, value) => s.(customerInfo := UpdateField(s.customerInfo, field, value))
    case LocateRequested => s.(isLocating := true)
    case LocateSucceeded(loc) => s.(customerInfo := s.customerInfo.(location := Some(loc)), isLocating := false)
    case LocateFailed => s.(isLocating := false)
    case PressFooter =>
      if !s.cartOpen then s
      else (match FooterButton(s.checkoutStep, |s.cart|)
        case None => s
        case Some(Proceed) => s.(checkoutStep := Details)
        case Some(Confirm) => Confirmed(s))
    case TimerFired => s.(cartOpen := false, checkoutStep := Idle, timerPending := false)
  }

  /** Every possible event keeps the session invariant. */
  lemma NextKeepsInvariant(s: StoreState, e: Event)
    requires Inv(s) && Possible(s, e)
    ensures Inv(Next(s, e))
  {
    match e
    case AddProduct(p) => Basket.AddToCartKeepsInvariant(s.cart, p);
    case DeleteLine(id) => Basket.RemoveLineKeepsInvariant(s.cart, id);
    case _ =>
  }

  /**
   * The checkout step changes only along idle -> details (the footer on a
   * non-empty basket), details -> success (the footer again, which sends one
   * message and empties the basket) and success -> idle (the callback).
   */
  lemma StepLegality(s: StoreState, e: Event)
    requires Inv(s) && Possible(s, e)
    ensures var t := Next(s, e);
            t.checkoutStep != s.checkoutStep ==>
              (s.checkoutStep == Idle && t.checkoutStep == Details && e == PressFooter
                 && s.cart != [] && t == s.(checkoutStep := Details))
              || (s.checkoutStep == Details && t.checkoutStep == Success && e == PressFooter
                 && s.cart != [] && t.cart == [] && t.outbox == s.outbox + [Message(s.customerInfo, s.cart)])
              || (s.checkoutStep == Success && t.checkoutStep == Idle && e == TimerFired)
  {
  }

  /** A message is sent exactly by a confirmation; earlier messages are kept. */
  lemma OutboxGrowsOnlyOnConfirm(s: StoreState, e: Event)
    requires Inv(s) && Possible(s, e)
    ensures var t := Next(s, e);
            if e == PressFooter && s.checkoutStep == Details
            then t.outbox == s.outbox + [Message(s.customerInfo, s.cart)]
            else t.outbox == s.outbox
  {
  }

  /**
   * Confirming sends the message for the delivery details and the basket as
   * they were before the basket was emptied; it ends with that basket's total.
   */
  lemma ConfirmSendsBasketTotal(s: StoreState)
    requires Inv(s) && Possible(s, PressFooter) && s.checkoutStep == Details
    ensures var t := Next(s, PressFooter);
            var m := t.outbox[|t.outbox| - 1];
            var d := IntToString(Basket.CartTotal(s.cart));
            |t.outbox| == |s.outbox| + 1 && t.cart == [] && t.checkoutStep == Success
            && |TotalLabel + d + "*"| <= |m| && m[|m| - |TotalLabel + d + "*"|..] == TotalLabel + d + "*"
            && IsNumeral(d) && ParseInt(d) == Basket.CartTotal(s.cart)
            && m == Message(s.customerInfo, s.cart)
  {
    MessageEndsWithTotal(s.customerInfo, s.cart);
  }

  /** Proceeding from idle touches nothing but the step; with an empty basket the button is not there and nothing happens. */
  lemma ProceedOnlyMovesStep(s: StoreState)
    requires Inv(s) && s.cartOpen && s.checkoutStep == Idle && s.cart != []
    ensures Next(s, PressFooter) == s.(checkoutStep := Details)
    ensures Next(s.(cart := []), PressFooter) == s.(cart := [])
  {
  }

  /** Saving an incomplete form changes nothing; a complete one puts exactly one new product first. */
  lemma SaveFormEffect(s: StoreState, id: Id)
    requires Inv(s)
    ensures !Catalog.FormComplete(s.form) ==> Next(s, SaveForm(id)) == s
    ensures Catalog.FormComplete(s.form) ==>
              IsNumeral(s.form.price)
              && Next(s, SaveForm(id)).products == [Catalog.NewProduct(s.form, id)] + s.products
              && Next(s, SaveForm(id)).form == EmptyForm
              && Next(s, SaveForm(id)).products[0].inStock
  {
  }

  /** A located position changes only the location; a failure changes no delivery field; both end the search. */
  lemma LocationOutcome(s: StoreState, loc: Location)
    requires Inv(s)
    ensures var t := Next(s, LocateSucceeded(loc));
            !t.isLocating && t.customerInfo.location == Some(loc)
            && forall f :: FieldValue(t.customerInfo, f) == FieldValue(s.customerInfo, f)
    ensures var t := Next(s, LocateFailed);
            !t.isLocating && t.customerInfo == s.customerInfo
  {
  }

  /** The session after a sequence of events. */
  function Run(s: StoreState, es: seq<Event>): StoreState
    requires Inv(s)
    requires PossibleRun(s, es)
    decreases |es|
  {
    if es == [] then s
    else
      NextKeepsInvariant(s, es[0]);
      Run(Next(s, es[0]), es[1..])
  }

  /** Every event of the sequence is possible in the state it meets. */
  predicate PossibleRun(s: StoreState, es: seq<Event>)
    requires Inv(s)
    decreases |es|
  {
    es == [] ||
    (Possible(s, es[0]) && (NextKeepsInvariant(s, es[0]); PossibleRun(Next(s, es[0]), es[1..])))
  }

  /** Every session reached from the start by possible events satisfies the invariant. */
  lemma {:induction false} RunKeepsInvariant(s: StoreState, es: seq<Event>)
    requires Inv(s) && PossibleRun(s, es)
    ensures Inv(Run(s, es))
    decreases |es|
  {
    if es != [] {
      NextKeepsInvariant(s, es[0]);
      RunKeepsInvariant(Next(s, es[0]), es[1..]);
    }
  }

  lemma ReachableSessionsValid(saved: Option<seq<Product>>, es: seq<Event>)
    requires PossibleRun(Initial(saved), es)
    ensures Inv(Run(Initial(saved), es))
  {
    RunKeepsInvariant(Initial(saved), es);
  }

  /** The storefront component: its state fields and the handlers that replace them. */
  class StoreSession {
    var products: seq<Product>
    var cart: seq<CartItem>
    var searchQuery: string
    var selectedCategory: string
    var cartOpen: bool
    var checkoutStep: CheckoutStep
    var customerInfo: CustomerInfo
    var isLocating: bool
    var form: ProductForm
    var timerPending: bool
    var outbox: seq<string>

    function State(): StoreState
      reads this
    {
      StoreState(products, cart, searchQuery, selectedCategory, cartOpen, checkoutStep,
                 customerInfo, isLocating, form, timerPending, outbox)
    }

    ghost predicate Valid()
      reads this
    {
      Inv(State())
    }

    constructor (saved: Option<seq<Product>>)
      ensures Valid() && State() == Initial(saved)
    {
      products := if saved.Some? then saved.value else InitialProducts;
      cart := [];
      searchQuery := "";
      selectedCategory := AllCategories;
      cartOpen := false;
      checkoutStep := Idle;
      customerInfo := EmptyCustomer;
      isLocating := false;
      form := EmptyForm;
      timerPending := false;
      outbox := [];
    }

    /** The product grid: the catalog products matching the search text and category, in catalog order. */
    function Visible(): (r: seq<Product>)
      reads this
      ensures forall p :: p in r <==> p in products && Catalog.Matches(p, searchQuery, selectedCategory)
    {
      Catalog.Filter(products, searchQuery, selectedCategory)
    }

    method SetSearchQuery(q: string)
      requires Valid()
      modifies this
      ensures Valid() && State() == Next(old(State()), Search(q))
    {
      searchQuery := q;
    }

    method SelectCategory(c: string)
      requires Valid()
      modifies this
      ensures Valid() && State() == Next(old(State()), PickCategory(c))
    {
      selectedCategory := c;
    }

    method OpenCart()
      requires Valid()
      modifies this
      ensures Valid() && State() == Next(old(State()), OpenBasket)
    {
      cartOpen := true;
    }

    method CloseCart()
      requires Valid()
      modifies this
      ensures Valid() && State() == Next(old(State()), CloseBasket)
    {
      cartOpen := false;
    }

    /** `addToCart`: merge into the line with the same id or append a copy, and open the basket. */
    method AddToCart(p: Product)
      requires Valid()
      modifies this
      ensures Valid() && State() == Next(old(State()), AddProduct(p))
    {
      Basket.AddToCartKeepsInvariant(cart, p);
      cart := Basket.AddToCart(cart, p);
      cartOpen := true;
    }

    /** The delete button of a basket line. */
    method RemoveCartLine(id: Id)
      requires Valid()
      modifies this
      ensures Valid() && State() == Next(old(State()), DeleteLine(id))
    {
      Basket.RemoveLineKeepsInvariant(cart, id);
      cart := Basket.RemoveLine(cart, id);
    }

    /** Typing into the product form. */
    method EditForm(f: ProductForm)
      requires Valid() && Catalog.PriceTextOk(f.price)
      modifies this
      ensures Valid() && State() == Next(old(State()), TypeForm(f))
    {
      form := f;
    }

    /** `addNewProduct` under the id the clock would give; `added` tells whether the form was accepted. */
    method AddNewProduct(id: Id) returns (added: bool)
      requires Valid()
      modifies this
      ensures Valid() && State() == Next(old(State()), SaveForm(id))
      ensures added <==> Catalog.FormComplete(old(form))
    {
      if form.name == "" || form.price == "" {
        return false;
      }
      products := [Catalog.NewProduct(form, id)] + products;
      form := EmptyForm;
      added := true;
    }

    /** The delete button of a catalog entry. */
    method RemoveProduct(id: Id)
      requires Valid()
      modifies this
      ensures Valid() && State() == Next(old(State()), DeleteProduct(id))
    {
      products := Catalog.RemoveProduct(products, id);
    }

    /** Typing into one delivery field. */
    method EditDeliveryField(field: DeliveryField, value: string)
      requires Valid()
      modifies this
      ensures Valid() && State() == Next(old(State()), TypeDelivery(field, value))
    {
      customerInfo := UpdateField(customerInfo, field, value);
    }

    /** `getLoc`: the position request is under way. */
    method RequestLocation()
      requires Valid()
      modifies this
      ensures Valid() && State() == Next(old(State()), LocateRequested)
    {
      isLocating := true;
    }

    /** The position callback of `getLoc`. */
    method LocationFound(loc: Location)
      requires Valid()
      modifies this
      ensures Valid() && State() == Next(old(State()), LocateSucceeded(loc))
    {
      customerInfo := customerInfo.(location := Some(loc));
      isLocating := false;
    }

    /** The error callback of `getLoc`. */
    method LocationFailed()
      requires Valid()
      modifies this
      ensures Valid() && State() == Next(old(State()), LocateFailed)
    {
      isLocating := false;
    }

    /** `handleConfirmOrder`: build and send the message, empty the basket, show success, schedule the return. */
    method ConfirmOrder()
      requires Valid()
      modifies this
      ensures Valid() && State() == Confirmed(old(State()))
    {
      var msg := BuildMessage(customerInfo, cart);
      outbox := outbox + [msg];
      cart := [];
      checkoutStep := Success;
      timerPending := true;
    }

    /** The footer button, pressed while it is rendered. */
    method PressFooterButton()
      requires Valid() && cartOpen && FooterButton(checkoutStep, |cart|).Some?
      modifies this
      ensures Valid() && State() == Next(old(State()), PressFooter)
    {
      if checkoutStep == Idle {
        checkoutStep := Details;
      } else {
        ConfirmOrder();
      }
    }

    /** The scheduled callback: close the basket and go back to idle. */
    method TimeoutFires()
      requires Valid() && timerPending
      modifies this
      ensures Valid() && State() == Next(old(State()), TimerFired)
    {
      cartOpen := false;
      checkoutStep := Idle;
      timerPending := false;
    }
  }
}
