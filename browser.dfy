/** The abstract browser every page object drives: what the page currently
    shows (its URL, the text of its inputs, the reported state of its
    checkboxes, the option chosen in each select, the rows of the shopping
    cart) and the ordered log of the driver calls made so far. */
module Browser {

  datatype Option<T> = None | Some(value: T)

  /** The exceptions the workflows let escape. */
  datatype Error =
    | ValueError      // an unrecognised gender, shipping method or payment method
    | AssertionError  // a workflow's postcondition check failed
    | Timeout         // a wait for the page ran out of time
    | AttributeError  // a method called on an object that does not have it

  /** How a page-object method or workflow ended. */
  datatype Outcome = Done | Raised(error: Error)

  datatype Result<T> = Ok(value: T) | Err(error: Error)

  /** What a page-object method or workflow does: the driver calls it makes,
      in order, and how it ends. */
  datatype Script = Script(actions: seq<Action>, outcome: Outcome)

  /** Selenium's `By` strategies used by the pages. */
  datatype Strategy = Id | CssSelector | XPath | Name

  /** A locator, or an element found relative to the `row`-th product name
      of the shopping cart (`product.find_element(...)`). */
  datatype Locator =
    | Locator(strategy: Strategy, selector: string)
    | InRow(row: nat, relative: Locator)

  /** The three ways `Select` picks an option. */
  datatype Choice = ByValue(value: string) | ByVisibleText(text: string) | ByIndex(index: nat)

  /** One driver call. */
  datatype Action =
    | Navigate(url: string)                 // driver.get(url)
    | Click(target: Locator)                // element.click()
    | Clear(target: Locator)                // element.clear()
    | SendKeys(target: Locator, text: string) // element.send_keys(text)
    | Select(target: Locator, choice: Choice) // Select(element).select_by_*(...)

  /** One row of the shopping cart: the product's display name and the text
      of its quantity input. */
  datatype CartRow = CartRow(name: string, quantity: string)

  /** What the page shows. `checked` holds the value `is_selected()` reports
      for each checkbox on the page; its keys are the checkboxes present. */
  datatype PageState = PageState(
    url: string,
    fields: map<Locator, string>,
    checked: map<Locator, bool>,
    selections: map<Locator, Choice>,
    cart: seq<CartRow>)

  /** The quantity input and the remove button of a cart row, found from the
      row's product name (tests/pages/cart.py:20-21). */
  const RowQuantityInput := Locator(XPath, "..//..//..//td[5]//input")
  const RowRemoveButton := Locator(XPath, "..//..//..//td[7]//button")

  predicate IsRowQuantity(l: Locator)
  {
    l.InRow? && l.relative == RowQuantityInput
  }

  predicate IsRowRemove(l: Locator)
  {
    l.InRow? && l.relative == RowRemoveButton
  }

  /** The text an input holds: a cart row's quantity, or a form field
      (empty when nothing was ever typed into it). */
  function FieldValue(s: PageState, l: Locator): string
  {
    if IsRowQuantity(l) then
      (if l.row < |s.cart| then s.cart[l.row].quantity else "")
    else if l in s.fields then s.fields[l] else ""
  }

  /** Whether typing into `l` can take effect on this page: every form
      field can, a cart quantity input only when its row exists. */
  predicate Writable(s: PageState, l: Locator)
  {
    IsRowQuantity(l) ==> l.row < |s.cart|
  }

  /** Replaces the text of one input. */
  function SetText(s: PageState, l: Locator, v: string): PageState
  {
    if IsRowQuantity(l) then
      (if l.row < |s.cart| then s.(cart := s.cart[l.row := s.cart[l.row].(quantity := v)]) else s)
    else s.(fields := s.fields[l := v])
  }

  /** What `is_selected()` reports for `l`. */
  function Flag(s: PageState, l: Locator): bool
  {
    l in s.checked && s.checked[l]
  }

  /** The effect of one driver call on the page. Clicking a cart row's
      remove button takes that row off the cart; clicking a checkbox flips
      its reported state; `clear()` empties an input and `send_keys` appends
      to it; a select remembers the option chosen; navigation changes the URL. */
  function Step(s: PageState, a: Action): PageState
  {
    match a
    case Navigate(u) => s.(url := u)
    case Click(l) =>
      if IsRowRemove(l) then
        (if l.row < |s.cart| then s.(cart := s.cart[..l.row] + s.cart[l.row + 1..]) else s)
      else if l in s.checked then s.(checked := s.checked[l := !s.checked[l]])
      else s
    case Clear(l) => SetText(s, l, "")
    case SendKeys(l, t) => SetText(s, l, FieldValue(s, l) + t)
    case Select(l, c) => s.(selections := s.selections[l := c])
  }

  /** The page after a sequence of driver calls. */
  function Run(s: PageState, actions: seq<Action>): PageState
    decreases |actions|
  {
    if actions == [] then s else Run(Step(s, actions[0]), actions[1..])
  }

  /** Running two sequences one after the other is running their concatenation. */
  lemma {:induction false} RunAppend(s: PageState, p: seq<Action>, q: seq<Action>)
    ensures Run(s, p + q) == Run(Run(s, p), q)
    decreases |p|
  {
    if p != [] {
      assert (p + q)[0] == p[0];
      assert (p + q)[1..] == p[1..] + q;
      RunAppend(Step(s, p[0]), p[1..], q);
    } else {
      assert p + q == q;
    }
  }

  /** Two calls in a row. */
  lemma RunPair(s: PageState, a: Action, b: Action)
    ensures Run(s, [a, b]) == Step(Step(s, a), b)
  {
    assert [a, b][1..] == [b];
    assert [b][1..] == [];
    assert Run(Step(s, a), [b]) == Run(Step(Step(s, a), b), []);
  }

  /** `clear()` followed by `send_keys(text)`: the idiom of every text setter. */
  function Fill(l: Locator, text: string): seq<Action>
  {
    [Clear(l), SendKeys(l, text)]
  }

  /** Clear-then-type leaves the input holding exactly `text`, whatever it
      held before, and changes nothing else on the page. */
  lemma FillSetsText(s: PageState, l: Locator, text: string)
    ensures Run(s, Fill(l, text)) == SetText(s, l, text)
    ensures Writable(s, l) ==> FieldValue(Run(s, Fill(l, text)), l) == text
  {
    var cleared := Step(s, Clear(l));
    assert FieldValue(cleared, l) == "" by {
      if IsRowQuantity(l) && l.row < |s.cart| {
        assert cleared.cart[l.row].quantity == "";
      }
    }
    assert "" + text == text;
    RunPair(s, Clear(l), SendKeys(l, text));
    if IsRowQuantity(l) && l.row < |s.cart| {
      assert cleared.cart[l.row := cleared.cart[l.row].(quantity := text)]
          == s.cart[l.row := s.cart[l.row].(quantity := text)];
    }
  }

  /** Setting one input leaves every other input, the checkboxes, the
      selects, the URL and the cart's names as they were. */
  lemma SetTextFrame(s: PageState, l: Locator, v: string, other: Locator)
    requires other != l
    ensures FieldValue(SetText(s, l, v), other) == FieldValue(s, other)
    ensures SetText(s, l, v).checked == s.checked
    ensures SetText(s, l, v).selections == s.selections
    ensures SetText(s, l, v).url == s.url
    ensures |SetText(s, l, v).cart| == |s.cart|
    ensures forall i :: 0 <= i < |s.cart| ==> SetText(s, l, v).cart[i].name == s.cart[i].name
  {
    if IsRowQuantity(l) && IsRowQuantity(other) && l.row < |s.cart| && other.row < |s.cart| {
      assert other.row != l.row;
    }
  }

  /** Filling an input twice leaves only the second value (clear-then-set,
      never append). */
  lemma {:induction false} FillTwiceKeepsLast(s: PageState, l: Locator, first: string, second: string)
    ensures Run(s, Fill(l, first) + Fill(l, second)) == Run(s, Fill(l, second))
  {
    RunAppend(s, Fill(l, first), Fill(l, second));
    FillSetsText(s, l, first);
    FillSetsText(SetText(s, l, first), l, second);
    FillSetsText(s, l, second);
    if IsRowQuantity(l) && l.row < |s.cart| {
      var once := SetText(s, l, first);
      assert once.cart[l.row := once.cart[l.row].(quantity := second)]
          == s.cart[l.row := s.cart[l.row].(quantity := second)];
    } else if !IsRowQuantity(l) {
      assert s.fields[l := first][l := second] == s.fields[l := second];
    }
  }

  /** Clicking a checkbox twice puts back the state it reported and the page
      as it was. */
  lemma ClickTwiceRestores(s: PageState, l: Locator)
    requires !IsRowRemove(l)
    ensures Run(s, [Click(l), Click(l)]) == s
  {
    var once := Step(s, Click(l));
    RunPair(s, Click(l), Click(l));
    if l in s.checked {
      assert s.checked[l := !s.checked[l]][l := s.checked[l]] == s.checked;
    }
  }

  /** Whether a driver call acts on the element `l`. */
  predicate Targets(a: Action, l: Locator)
  {
    !a.Navigate? && a.target == l
  }

  /** Whether some call of `actions` acts on the element `l`. */
  predicate Touches(actions: seq<Action>, l: Locator)
  {
    exists k :: 0 <= k < |actions| && Targets(actions[k], l)
  }

  /** A concatenation acts on an element exactly when one of its parts does. */
  lemma TouchesAppend(p: seq<Action>, q: seq<Action>, l: Locator)
    ensures Touches(p + q, l) <==> Touches(p, l) || Touches(q, l)
  {
    if Touches(p + q, l) {
      var k :| 0 <= k < |p + q| && Targets((p + q)[k], l);
      if k >= |p| {
        assert Targets(q[k - |p|], l);
      }
    }
    if Touches(q, l) {
      var k :| 0 <= k < |q| && Targets(q[k], l);
      assert Targets((p + q)[k + |p|], l);
    }
    if Touches(p, l) {
      var k :| 0 <= k < |p| && Targets(p[k], l);
      assert Targets((p + q)[k], l);
    }
  }

  /** Clear-then-type acts on exactly one element. */
  lemma FillTouches(l: Locator, text: string, m: Locator)
    ensures Touches(Fill(l, text), m) <==> m == l
  {
    if m == l {
      assert Targets(Fill(l, text)[0], m);
    }
  }

  /** A single call acts on the element it targets and on no other. */
  lemma SingleTouches(a: Action, m: Locator)
    ensures Touches([a], m) <==> Targets(a, m)
  {
    if Targets(a, m) {
      assert Targets([a][0], m);
    }
  }

  /** The shared browser session. `start` is the page the session began on;
      `state` is always what the logged calls made of it. */
  class Session {
    var state: PageState
    var trace: seq<Action>
    ghost var start: PageState

    ghost predicate Valid()
      reads this
    {
      state == Run(start, trace)
    }

    constructor (initial: PageState)
      ensures Valid() && start == initial && state == initial && trace == []
    {
      state := initial;
      trace := [];
      start := initial;
    }

    /** The session made exactly the calls `actions`, in order, and the page
        is what those calls made of it. */
    twostate predicate Performed(actions: seq<Action>)
      reads this
    {
      Valid() && start == old(start)
      && trace == old(trace) + actions
      && state == Run(old(state), actions)
    }

    /** Issues one driver call. */
    method Perform(a: Action)
      requires Valid()
      modifies this
      ensures Performed([a])
      ensures state == Step(old(state), a)
    {
      RunAppend(start, trace, [a]);
      assert [a][1..] == [];
      trace := trace + [a];
      state := Step(state, a);
    }

    /** Clears an input, then types into it. */
    method ClearAndType(l: Locator, text: string)
      requires Valid()
      modifies this
      ensures Performed(Fill(l, text))
    {
      RunPair(state, Clear(l), SendKeys(l, text));
      Perform(Clear(l));
      Perform(SendKeys(l, text));
    }
  }
}
