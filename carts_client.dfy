/**
 * Callers of the cart store, written against the store's contracts alone:
 * a run of cart creations, and one session that creates carts, adds
 * products and looks carts up.
 */
module CartsClient {
  import opened JsNumber
  import opened Carts

  /** n cart creations on a store that holds no carts give the ids 1, 2, ..., n, in order. */
  method AddCartsInSequence(store: CartsManager, n: nat) returns (made: seq<Cart>)
    requires store.GetCarts() == []
    modifies store
    ensures made == Serial(n)
    ensures store.GetCarts() == Serial(n)
  {
    made := [];
    var k := 0;
    while k < n
      invariant 0 <= k <= n
      invariant made == Serial(k) && store.GetCarts() == Serial(k)
    {
      MaxIdOfSerial(k);
      var cart := store.AddCart();
      made := made + [cart];
      k := k + 1;
      assert Serial(k) == Serial(k - 1) + [Cart(k, [])];
    }
  }

  /** A session on a store whose file does not exist yet. */
  method ExampleSession()
  {
    var store := new CartsManager(Missing);
    var first := store.AddCart();
    assert first == Cart(1, []);
    AddProductsToFirstCart(store);
    var second := store.AddCart();
    assert second == Cart(2, []);
    LookUpSecondCart(store);
  }

  /** One cart, then the same product twice, then another product, then an unknown cart. */
  method AddProductsToFirstCart(store: CartsManager)
    requires store.GetCarts() == [Cart(1, [])]
    modifies store
    ensures store.GetCarts() == [Cart(1, [LineItem(Int(42), 2), LineItem(Int(7), 1)])]
  {
    AddFirstProduct(store);
    AddSameProductAsText(store);
    AddOtherProduct(store);
    AddToUnknownCart(store);
  }

  method AddFirstProduct(store: CartsManager)
    requires store.GetCarts() == [Cart(1, [])]
    modifies store
    ensures store.GetCarts() == [Cart(1, [LineItem(Int(42), 1)])]
  {
    FirstProductAdded();
    var carts := store.AddProductToCart(NumberArg(Int(1)), NumberArg(Int(42)));
  }

  /** Text ids are normalised by parseInt before they are compared. */
  method AddSameProductAsText(store: CartsManager)
    requires store.GetCarts() == [Cart(1, [LineItem(Int(42), 1)])]
    modifies store
    ensures store.GetCarts() == [Cart(1, [LineItem(Int(42), 2)])]
  {
    ghost var before := store.GetCarts();
    var carts := store.AddProductToCart(TextArg("1"), TextArg("42"));
    assert carts == AddProduct(before, ParseInt(TextArg("1")), ParseInt(TextArg("42")));
    TextOfOneAndFortyTwo();
    DecimalTextParses(1);
    DecimalTextParses(42);
    SameProductAgain();
  }

  method AddOtherProduct(store: CartsManager)
    requires store.GetCarts() == [Cart(1, [LineItem(Int(42), 2)])]
    modifies store
    ensures store.GetCarts() == [Cart(1, [LineItem(Int(42), 2), LineItem(Int(7), 1)])]
  {
    OtherProductAdded();
    var carts := store.AddProductToCart(NumberArg(Int(1)), NumberArg(Int(7)));
  }

  /** An unknown cart id changes nothing. */
  method AddToUnknownCart(store: CartsManager)
    requires forall j :: 0 <= j < |store.GetCarts()| ==> store.GetCarts()[j].id != 99
    modifies store
    ensures store.GetCarts() == old(store.GetCarts())
  {
    AddProductUnknownCart(store.GetCarts(), Int(99), Int(7));
    var carts := store.AddProductToCart(NumberArg(Int(99)), NumberArg(Int(7)));
  }

  lemma TextOfOneAndFortyTwo()
    ensures DecimalText(1) == "1" && DecimalText(42) == "42"
  {
    assert DecimalText(42) == DecimalText(4) + [DecimalDigit(2)];
  }

  lemma AddProductToOnlyCart(c: Cart, cid: Number, pid: Number)
    ensures AddProduct([c], cid, pid) == [UpdatedCart(c, cid, pid)]
  {
    assert [c][1..] == [];
  }

  lemma FirstProductAdded()
    ensures AddProduct([Cart(1, [])], Int(1), Int(42)) == [Cart(1, [LineItem(Int(42), 1)])]
  {
    AddProductToOnlyCart(Cart(1, []), Int(1), Int(42));
  }

  lemma SameProductAgain()
    ensures AddProduct([Cart(1, [LineItem(Int(42), 1)])], Int(1), Int(42)) == [Cart(1, [LineItem(Int(42), 2)])]
  {
    AddProductToOnlyCart(Cart(1, [LineItem(Int(42), 1)]), Int(1), Int(42));
    WithProductIncrements([LineItem(Int(42), 1)], Int(42), 0);
    assert [LineItem(Int(42), 1)][0 := LineItem(Int(42), 2)] == [LineItem(Int(42), 2)];
  }

  lemma OtherProductAdded()
    ensures AddProduct([Cart(1, [LineItem(Int(42), 2)])], Int(1), Int(7))
         == [Cart(1, [LineItem(Int(42), 2), LineItem(Int(7), 1)])]
  {
    AddProductToOnlyCart(Cart(1, [LineItem(Int(42), 2)]), Int(1), Int(7));
    WithProductAppends([LineItem(Int(42), 2)], Int(7));
    assert [LineItem(Int(42), 2)] + [LineItem(Int(7), 1)] == [LineItem(Int(42), 2), LineItem(Int(7), 1)];
  }

  /** Lookups: the new cart by its id, an unknown id, and an id given as text. */
  method LookUpSecondCart(store: CartsManager)
    requires |store.GetCarts()| == 2 && store.GetCarts()[0].id == 1 && store.GetCarts()[1] == Cart(2, [])
  {
    var found := store.GetCartById(NumberArg(Int(2)));
    assert HasId(store.GetCarts()[1], NumberArg(Int(2)));
    assert found == Found(Cart(2, []));
    var missing := store.GetCartById(NumberArg(Int(99)));
    assert missing == NotFound("Cart Not Found!", NumberArg(Int(99)));

    // The lookup compares strictly: the text "1" is not the number 1.
    var byText := store.GetCartById(TextArg("1"));
    assert byText == NotFound("Cart Not Found!", TextArg("1"));
  }
}
