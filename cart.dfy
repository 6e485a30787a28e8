/** The shopping cart page (tests/pages/cart.py). Rows are looked up by their
    display name with a scan that stops at the first exact match. */
module CartPage {
  import opened Browser
  import Text

  const Url := "https://demo.nopcommerce.com/cart"
  const ProductName := Locator(CssSelector, ".product-name")
  const UpdateCartButton := Locator(CssSelector, ".update-cart-button")

  /** The index of the first row whose name equals `name` exactly. */
  function FirstMatch(cart: seq<CartRow>, name: string): (r: Option<nat>)
    ensures r.Some? ==> r.value < |cart| && cart[r.value].name == name
    ensures r.Some? ==> forall j :: 0 <= j < r.value ==> cart[j].name != name
    ensures r.None? <==> forall j :: 0 <= j < |cart| ==> cart[j].name != name
    decreases |cart|
  {
    if cart == [] then None
    else if cart[0].name == name then Some(0)
    else match FirstMatch(cart[1..], name)
      case None => None
      case Some(k) => Some(k + 1)
  }

  /** The names shown in the cart, in row order. */
  function Names(cart: seq<CartRow>): seq<string>
  {
    seq(|cart|, i requires 0 <= i < |cart| => cart[i].name)
  }

  /** The quantity text of the first row named `name`, if any. */
  function QuantityOf(cart: seq<CartRow>, name: string): Option<string>
  {
    match FirstMatch(cart, name)
    case None => None
    case Some(i) => Some(cart[i].quantity)
  }

  /** The clicks `remove_product_from_cart` makes. */
  function RemoveActions(cart: seq<CartRow>, name: string): seq<Action>
  {
    match FirstMatch(cart, name)
    case None => []
    case Some(i) => [Click(InRow(i, RowRemoveButton)), Click(UpdateCartButton)]
  }

  /** The calls `modify_product_quantity` makes. */
  function ModifyActions(cart: seq<CartRow>, name: string, quantity: int): seq<Action>
  {
    match FirstMatch(cart, name)
    case None => []
    case Some(i) => Fill(InRow(i, RowQuantityInput), Text.IntString(quantity)) + [Click(UpdateCartButton)]
  }

  /** `open`: navigates to the cart. */
  method Open(b: Session)
    requires b.Valid()
    modifies b
    ensures b.Performed([Navigate(Url)])
    ensures b.state.url == Url
  {
    b.Perform(Navigate(Url));
  }

  /** `list_products_in_cart`: one name per row, in row order. Waiting for
      the presence of all product names times out on an empty cart. */
  method ListProductsInCart(b: Session) returns (r: Result<seq<string>>)
    ensures r.Err? <==> b.state.cart == []
    ensures r.Err? ==> r.error == Timeout
    ensures r.Ok? ==> |r.value| == |b.state.cart|
    ensures r.Ok? ==> forall i :: 0 <= i < |r.value| ==> r.value[i] == b.state.cart[i].name
  {
    var rows := b.state.cart;
    if rows == [] {
      return Err(Timeout);
    }
    var names := [];
    var i := 0;
    while i < |rows|
      invariant 0 <= i <= |rows|
      invariant |names| == i
      invariant forall j :: 0 <= j < i ==> names[j] == rows[j].name
    {
      names := names + [rows[i].name];
      i := i + 1;
    }
    return Ok(names);
  }

  /** `get_product_quantity`: the quantity of the first row named exactly
      `product_name`, `None` when no row is. */
  method GetProductQuantity(b: Session, productName: string) returns (r: Result<Option<string>>)
    ensures b.state.cart == [] ==> r == Err(Timeout)
    ensures b.state.cart != [] ==> r.Ok?
    ensures r.Ok? && r.value.None? ==> forall j :: 0 <= j < |b.state.cart| ==> b.state.cart[j].name != productName
    ensures r.Ok? && r.value.Some? ==>
      exists k :: 0 <= k < |b.state.cart| && b.state.cart[k].name == productName
        && r.value.value == b.state.cart[k].quantity
        && forall j :: 0 <= j < k ==> b.state.cart[j].name != productName
    ensures r.Ok? ==> r.value == QuantityOf(b.state.cart, productName)
  {
    var rows := b.state.cart;
    if rows == [] {
      return Err(Timeout);
    }
    var i := 0;
    while i < |rows|
      invariant 0 <= i <= |rows|
      invariant forall j :: 0 <= j < i ==> rows[j].name != productName
    {
      if rows[i].name == productName {
        return Ok(Some(rows[i].quantity));
      }
      i := i + 1;
    }
    return Ok(None);
  }

  /** `remove_product_from_cart`: removes the first row named exactly
      `product_name` and clicks update, or does nothing when no row is. */
  method RemoveProductFromCart(b: Session, productName: string) returns (r: Outcome)
    requires b.Valid()
    modifies b
    ensures b.Performed(RemoveActions(old(b.state.cart), productName))
    ensures r == if old(b.state.cart) == [] then Raised(Timeout) else Done
  {
    var rows := b.state.cart;
    if rows == [] {
      return Raised(Timeout);
    }
    var i := 0;
    while i < |rows|
      invariant 0 <= i <= |rows|
      invariant forall j :: 0 <= j < i ==> rows[j].name != productName
      invariant b.Valid() && b.start == old(b.start)
      invariant b.trace == old(b.trace) && b.state == old(b.state)
    {
      if rows[i].name == productName {
        RunPair(b.state, Click(InRow(i, RowRemoveButton)), Click(UpdateCartButton));
        b.Perform(Click(InRow(i, RowRemoveButton)));
        b.Perform(Click(UpdateCartButton));
        return Done;
      }
      i := i + 1;
    }
    return Done;
  }

  /** `modify_product_quantity`: clears and retypes the quantity of the first
      row named exactly `product_name`, then clicks update once. */
  method ModifyProductQuantity(b: Session, productName: string, quantity: int) returns (r: Outcome)
    requires b.Valid()
    modifies b
    ensures b.Performed(ModifyActions(old(b.state.cart), productName, quantity))
    ensures r == if old(b.state.cart) == [] then Raised(Timeout) else Done
  {
    var rows := b.state.cart;
    if rows == [] {
      return Raised(Timeout);
    }
    var i := 0;
    while i < |rows|
      invariant 0 <= i <= |rows|
      invariant forall j :: 0 <= j < i ==> rows[j].name != productName
      invariant b.Valid() && b.start == old(b.start)
      invariant b.trace == old(b.trace) && b.state == old(b.state)
    {
      if rows[i].name == productName {
        var input := InRow(i, RowQuantityInput);
        b.ClearAndType(input, Text.IntString(quantity));
        b.Perform(Click(UpdateCartButton));
        RunAppend(old(b.state), Fill(input, Text.IntString(quantity)), [Click(UpdateCartButton)]);
        return Done;
      }
      i := i + 1;
    }
    return Done;
  }

  /** Removing affects at most one row, the first exact match: rows before
      it stay where they are, rows after it move up by one, and nothing else
      on the page changes (the update button is a button, not a checkbox,
      so clicking it flips nothing). A name that matches no row makes no click at all,
      not even on update, and leaves the page as it was. */
  lemma RemoveEffect(s: PageState, name: string)
    ensures FirstMatch(s.cart, name).None? ==>
      RemoveActions(s.cart, name) == [] && Run(s, RemoveActions(s.cart, name)) == s
    ensures FirstMatch(s.cart, name).Some? ==>
      var i := FirstMatch(s.cart, name).value;
      var after := Run(s, RemoveActions(s.cart, name));
      && after == s.(cart := after.cart, checked := after.checked)
      && (UpdateCartButton !in s.checked ==> after.checked == s.checked)
      && |after.cart| == |s.cart| - 1
      && (forall j :: 0 <= j < i ==> after.cart[j] == s.cart[j])
      && (forall j :: i <= j < |after.cart| ==> after.cart[j] == s.cart[j + 1])
  {
    match FirstMatch(s.cart, name)
    case None =>
    case Some(i) =>
      var remove := Click(InRow(i, RowRemoveButton));
      RunPair(s, remove, Click(UpdateCartButton));
      var removed := Step(s, remove);
      assert removed == s.(cart := s.cart[..i] + s.cart[i + 1..]);
      assert Step(removed, Click(UpdateCartButton)) == removed.(checked := Step(removed, Click(UpdateCartButton)).checked);
  }

  /** Updating a quantity retypes the first matching row's input only: every
      row keeps its name, every other row keeps its quantity, and nothing
      else on the page changes while the update button is not a checkbox. */
  lemma ModifyEffect(s: PageState, name: string, quantity: int)
    ensures FirstMatch(s.cart, name).None? ==>
      ModifyActions(s.cart, name, quantity) == [] && Run(s, ModifyActions(s.cart, name, quantity)) == s
    ensures FirstMatch(s.cart, name).Some? ==>
      var i := FirstMatch(s.cart, name).value;
      var after := Run(s, ModifyActions(s.cart, name, quantity));
      && after == s.(cart := s.cart[i := CartRow(name, Text.IntString(quantity))], checked := after.checked)
      && (UpdateCartButton !in s.checked ==> after.checked == s.checked)
  {
    match FirstMatch(s.cart, name)
    case None =>
    case Some(i) =>
      var input := InRow(i, RowQuantityInput);
      var text := Text.IntString(quantity);
      RunAppend(s, Fill(input, text), [Click(UpdateCartButton)]);
      FillSetsText(s, input, text);
      var typed := SetText(s, input, text);
      assert typed == s.(cart := s.cart[i := CartRow(name, text)]);
      assert Run(typed, [Click(UpdateCartButton)]) == Step(typed, Click(UpdateCartButton)) by {
        assert [Click(UpdateCartButton)][1..] == [];
      }
  }

  /** Updating to the same quantity twice shows that quantity, as once does
      (the input is cleared first, so the value is never doubled). */
  lemma {:induction false} ModifyTwiceSameAsOnce(s: PageState, name: string, quantity: int)
    requires UpdateCartButton !in s.checked
    ensures var once := Run(s, ModifyActions(s.cart, name, quantity));
      Run(once, ModifyActions(once.cart, name, quantity)) == once
  {
    ModifyEffect(s, name, quantity);
    var once := Run(s, ModifyActions(s.cart, name, quantity));
    ModifyEffect(once, name, quantity);
    match FirstMatch(s.cart, name)
    case None =>
    case Some(i) =>
      assert FirstMatch(once.cart, name) == Some(i) by {
        assert forall j :: 0 <= j < |s.cart| ==> once.cart[j].name == s.cart[j].name;
      }
      assert once.cart[i := CartRow(name, Text.IntString(quantity))] == once.cart;
  }
}
