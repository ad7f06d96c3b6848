/**
 * A store of shopping carts kept in one file. Every operation reads the
 * whole collection from the file, changes it in memory and writes the whole
 * collection back. The file is modelled by its contents as an abstract
 * value (FileState); reading it and writing it are the only contact with it.
 */
module Carts {
  import opened JsNumber

  /** One line of a cart: a product id and how many units of it. */
  datatype LineItem = LineItem(product: Number, quantity: int)

  /** A cart: its id and its line items, in the order they were added. */
  datatype Cart = Cart(id: int, products: seq<LineItem>)

  /**
   * What reading the cart file finds: no file at the path, a file that
   * cannot be read for another reason, an empty file, text that is not a
   * list of carts, or a list of carts.
   */
  datatype FileState = Missing | Unreadable | Empty | Corrupt | Ok(carts: seq<Cart>)

  /** The result of a lookup by id: the cart, or a record naming the id that was asked for. */
  datatype CartLookup = Found(cart: Cart) | NotFound(error: string, cartId: Arg)

  const CartNotFound: string := "Cart Not Found!"

  // ---------------------------------------------------------------------------
  // Id assignment

  /** The largest cart id, where the running maximum starts at 0 and grows only on a strictly larger id. */
  function MaxId(carts: seq<Cart>): (m: int)
    ensures m >= 0
    ensures forall i :: 0 <= i < |carts| ==> carts[i].id <= m
    ensures m == 0 || exists i :: 0 <= i < |carts| && carts[i].id == m
  {
    if carts == [] then 0
    else
      var m := MaxId(carts[..|carts| - 1]);
      if carts[|carts| - 1].id > m then carts[|carts| - 1].id else m
  }

  /** The id a new cart gets is the least positive integer above every id in use. */
  lemma NextIdIsLeastFresh(carts: seq<Cart>, k: int)
    requires k >= 1
    requires forall i :: 0 <= i < |carts| ==> carts[i].id < k
    ensures MaxId(carts) + 1 <= k
  {
    if MaxId(carts) != 0 {
      var i :| 0 <= i < |carts| && carts[i].id == MaxId(carts);
    }
  }

  /** The collection left by n successive cart creations, starting from an empty store. */
  function Serial(n: nat): seq<Cart>
  {
    seq(n, i => Cart(i + 1, []))
  }

  lemma {:induction false} MaxIdOfSerial(n: nat)
    ensures MaxId(Serial(n)) == n
  {
    if n > 0 {
      MaxIdOfSerial(n - 1);
      assert Serial(n)[..n - 1] == Serial(n - 1);
    }
  }

  // ---------------------------------------------------------------------------
  // Lookup by id

  /** `cart.id === id` with no coercion: an id given as text never matches. */
  predicate HasId(cart: Cart, id: Arg)
  {
    id.NumberArg? && StrictEquals(Int(cart.id), id.number)
  }

  /** Index i holds the first cart with the given id. */
  predicate IsFirstWithId(carts: seq<Cart>, id: Arg, i: int)
  {
    0 <= i < |carts| && HasId(carts[i], id) && forall j :: 0 <= j < i ==> !HasId(carts[j], id)
  }

  /** `carts.filter(cart => cart.id === id)`. */
  function MatchingCarts(carts: seq<Cart>, id: Arg): (r: seq<Cart>)
    ensures |r| <= |carts|
    ensures forall c :: c in r ==> c in carts && HasId(c, id)
    ensures r == [] <==> forall i :: 0 <= i < |carts| ==> !HasId(carts[i], id)
    ensures r != [] ==> exists i :: IsFirstWithId(carts, id, i) && r[0] == carts[i]
  {
    if carts == [] then []
    else
      var rest := MatchingCarts(carts[1..], id);
      if HasId(carts[0], id) then
        assert IsFirstWithId(carts, id, 0);
        [carts[0]] + rest
      else
        assert forall i :: 0 < i < |carts| ==> carts[i] == carts[1..][i - 1];
        assert rest != [] ==> exists i :: IsFirstWithId(carts, id, i) && rest[0] == carts[i] by {
          if rest != [] {
            var i :| IsFirstWithId(carts[1..], id, i) && rest[0] == carts[1..][i];
            assert IsFirstWithId(carts, id, i + 1);
          }
        }
        rest
  }

  /** A cart appended with an id above every id in use is the first cart with that id. */
  lemma AppendedIsFirst(carts: seq<Cart>, c: Cart)
    requires forall i :: 0 <= i < |carts| ==> carts[i].id < c.id
    ensures IsFirstWithId(carts + [c], NumberArg(Int(c.id)), |carts|)
    ensures forall i :: IsFirstWithId(carts + [c], NumberArg(Int(c.id)), i) ==> i == |carts|
  {
    var s := carts + [c];
    assert forall j :: 0 <= j < |carts| ==> s[j] == carts[j];
  }

  // ---------------------------------------------------------------------------
  // Adding a product to a cart

  /** `cart.id === parseInt(cid)`. */
  predicate IdMatches(cart: Cart, cid: Number)
  {
    StrictEquals(Int(cart.id), cid)
  }

  /** The number of units over all line items. */
  function Units(items: seq<LineItem>): int
  {
    if items == [] then 0 else items[0].quantity + Units(items[1..])
  }

  /**
   * The line items after one more unit of `pid`: the first item holding
   * `pid` gets one more unit, and when none does an item with one unit is
   * appended. Either way the cart holds exactly one unit more, and at most
   * one item more.
   */
  function WithProduct(items: seq<LineItem>, pid: Number): (r: seq<LineItem>)
    ensures |items| <= |r| <= |items| + 1
    ensures Units(r) == Units(items) + 1
  {
    if items == [] then [LineItem(pid, 1)]
    else if StrictEquals(items[0].product, pid) then [items[0].(quantity := items[0].quantity + 1)] + items[1..]
    else [items[0]] + WithProduct(items[1..], pid)
  }

  /** A cart after the add-product step of the map callback. */
  function UpdatedCart(cart: Cart, cid: Number, pid: Number): Cart
  {
    if IdMatches(cart, cid) then cart.(products := WithProduct(cart.products, pid)) else cart
  }

  /** The collection after adding `pid` to every cart whose id is `cid`. */
  function AddProduct(carts: seq<Cart>, cid: Number, pid: Number): seq<Cart>
  {
    if carts == [] then [] else [UpdatedCart(carts[0], cid, pid)] + AddProduct(carts[1..], cid, pid)
  }

  /**
   * No two items hold strictly equal (`===`) products. Items whose product
   * is NaN are never equal to any item, so they never count as duplicates.
   */
  predicate UniqueProducts(items: seq<LineItem>)
  {
    forall i, j :: 0 <= i < j < |items| ==> !StrictEquals(items[i].product, items[j].product)
  }

  /** When item k is the first that holds `pid`, only its quantity changes, by one. */
  lemma {:induction false} WithProductIncrements(items: seq<LineItem>, pid: Number, k: nat)
    requires k < |items| && StrictEquals(items[k].product, pid)
    requires forall j :: 0 <= j < k ==> !StrictEquals(items[j].product, pid)
    ensures WithProduct(items, pid) == items[k := LineItem(items[k].product, items[k].quantity + 1)]
  {
    if k > 0 {
      WithProductIncrements(items[1..], pid, k - 1);
      assert items[k := LineItem(items[k].product, items[k].quantity + 1)]
          == [items[0]] + items[1..][k - 1 := LineItem(items[k].product, items[k].quantity + 1)];
    }
  }

  /** When no item holds `pid` (an empty cart included), one unit of it is appended at the end. */
  lemma {:induction false} WithProductAppends(items: seq<LineItem>, pid: Number)
    requires forall j :: 0 <= j < |items| ==> !StrictEquals(items[j].product, pid)
    ensures WithProduct(items, pid) == items + [LineItem(pid, 1)]
  {
    if items != [] {
      WithProductAppends(items[1..], pid);
      assert items + [LineItem(pid, 1)] == [items[0]] + (items[1..] + [LineItem(pid, 1)]);
    }
  }

  /** A product that does not parse (NaN) matches no item, so every such addition appends a new item. */
  lemma NaNProductAppends(items: seq<LineItem>)
    ensures WithProduct(items, NaN) == items + [LineItem(NaN, 1)]
  {
    WithProductAppends(items, NaN);
  }

  /** The same product added twice to an empty cart: one item with two units, not two items. */
  lemma SameProductTwice(pid: Number)
    requires pid.Int?
    ensures WithProduct(WithProduct([], pid), pid) == [LineItem(pid, 2)]
  {
    WithProductAppends([], pid);
    WithProductIncrements([LineItem(pid, 1)], pid, 0);
  }

  /** Two different products added to an empty cart: two items of one unit each, in the order they were added. */
  lemma TwoProducts(p1: Number, p2: Number)
    requires !StrictEquals(p1, p2)
    ensures WithProduct(WithProduct([], p1), p2) == [LineItem(p1, 1), LineItem(p2, 1)]
  {
    WithProductAppends([], p1);
    WithProductAppends([LineItem(p1, 1)], p2);
  }

  /** The index of the first item that holds `pid`, or the number of items when none does. */
  function FirstWithProduct(items: seq<LineItem>, pid: Number): (k: nat)
    ensures k <= |items|
    ensures k < |items| ==> StrictEquals(items[k].product, pid)
    ensures forall j :: 0 <= j < k ==> !StrictEquals(items[j].product, pid)
  {
    if items == [] || StrictEquals(items[0].product, pid) then 0 else 1 + FirstWithProduct(items[1..], pid)
  }

  /** Adding a product never makes two items of one cart hold strictly equal products (NaN items are never merged, see NaNProductAppends). */
  lemma WithProductKeepsUnique(items: seq<LineItem>, pid: Number)
    requires UniqueProducts(items)
    ensures UniqueProducts(WithProduct(items, pid))
  {
    var k := FirstWithProduct(items, pid);
    if k < |items| {
      WithProductIncrements(items, pid, k);
    } else {
      WithProductAppends(items, pid);
    }
  }

  /** Every product id is an integer. */
  predicate IntegerProducts(items: seq<LineItem>)
  {
    forall i :: 0 <= i < |items| ==> items[i].product.Int?
  }

  /** No product id occurs in two items. */
  predicate DistinctProducts(items: seq<LineItem>)
  {
    forall i, j :: 0 <= i < j < |items| ==> items[i].product != items[j].product
  }

  /** With integer product ids, adding an integer product keeps every product id in one item only. */
  lemma WithProductKeepsDistinct(items: seq<LineItem>, pid: Number)
    requires pid.Int? && IntegerProducts(items) && DistinctProducts(items)
    ensures IntegerProducts(WithProduct(items, pid)) && DistinctProducts(WithProduct(items, pid))
  {
    var r := WithProduct(items, pid);
    WithProductKeepsUnique(items, pid);
    var k := FirstWithProduct(items, pid);
    if k < |items| {
      WithProductIncrements(items, pid, k);
    } else {
      WithProductAppends(items, pid);
      assert r[|items|] == LineItem(pid, 1);
    }
    assert IntegerProducts(r);
    forall i, j | 0 <= i < j < |r| ensures r[i].product != r[j].product {
      assert !StrictEquals(r[i].product, r[j].product);
    }
  }

  /** Every line item holds at least one unit. */
  predicate PositiveQuantities(items: seq<LineItem>)
  {
    forall i :: 0 <= i < |items| ==> items[i].quantity >= 1
  }

  /** Adding a product keeps every line item at one unit or more. */
  lemma WithProductKeepsPositive(items: seq<LineItem>, pid: Number)
    requires PositiveQuantities(items)
    ensures PositiveQuantities(WithProduct(items, pid))
  {
    var k := FirstWithProduct(items, pid);
    if k < |items| {
      WithProductIncrements(items, pid, k);
    } else {
      WithProductAppends(items, pid);
    }
  }

  /** Every cart is passed through the callback: all carts with the id change (duplicates too), the rest stay as they were. */
  lemma {:induction false} AddProductPointwise(carts: seq<Cart>, cid: Number, pid: Number)
    ensures |AddProduct(carts, cid, pid)| == |carts|
    ensures forall j :: 0 <= j < |carts| ==> AddProduct(carts, cid, pid)[j] == UpdatedCart(carts[j], cid, pid)
  {
    if carts != [] {
      AddProductPointwise(carts[1..], cid, pid);
    }
  }

  /** An id that matches no cart leaves the collection as it was: nothing changes, no cart is created. */
  lemma {:induction false} AddProductUnknownCart(carts: seq<Cart>, cid: Number, pid: Number)
    requires forall j :: 0 <= j < |carts| ==> !IdMatches(carts[j], cid)
    ensures AddProduct(carts, cid, pid) == carts
  {
    if carts != [] {
      AddProductUnknownCart(carts[1..], cid, pid);
    }
  }

  /** If no cart holds two strictly equal products before, none does after. */
  lemma AddProductKeepsUnique(carts: seq<Cart>, cid: Number, pid: Number)
    requires forall j :: 0 <= j < |carts| ==> UniqueProducts(carts[j].products)
    ensures |AddProduct(carts, cid, pid)| == |carts|
    ensures forall j :: 0 <= j < |carts| ==> UniqueProducts(AddProduct(carts, cid, pid)[j].products)
  {
    AddProductPointwise(carts, cid, pid);
    forall j | 0 <= j < |carts| ensures UniqueProducts(AddProduct(carts, cid, pid)[j].products) {
      WithProductKeepsUnique(carts[j].products, pid);
    }
  }

  /** If every line item of every cart holds at least one unit before, every one does after. */
  lemma AddProductKeepsPositive(carts: seq<Cart>, cid: Number, pid: Number)
    requires forall j :: 0 <= j < |carts| ==> PositiveQuantities(carts[j].products)
    ensures |AddProduct(carts, cid, pid)| == |carts|
    ensures forall j :: 0 <= j < |carts| ==> PositiveQuantities(AddProduct(carts, cid, pid)[j].products)
  {
    AddProductPointwise(carts, cid, pid);
    forall j | 0 <= j < |carts| ensures PositiveQuantities(AddProduct(carts, cid, pid)[j].products) {
      WithProductKeepsPositive(carts[j].products, pid);
    }
  }

  /**
   * The callback that `addProductToCart` maps over the carts: for the cart
   * with the id, scan the line items for the product, add one unit to the
   * first that holds it and stop, or append one unit when none does.
   */
  method UpdateCart(cart: Cart, cid: Number, pid: Number) returns (updated: Cart)
    ensures updated == UpdatedCart(cart, cid, pid)
  {
    var products := cart.products;
    var hasProduct := false;
    if IdMatches(cart, cid) && |products| > 0 {
      var i := 0;
      while i < |products|
        invariant 0 <= i <= |products|
        invariant !hasProduct && products == cart.products
        invariant forall j :: 0 <= j < i ==> !StrictEquals(products[j].product, pid)
      {
        if StrictEquals(products[i].product, pid) {
          WithProductIncrements(products, pid, i);
          products := products[i := LineItem(products[i].product, products[i].quantity + 1)];
          hasProduct := true;
          break;
        }
        i := i + 1;
      }
      if !hasProduct {
        WithProductAppends(products, pid);
      }
    }
    if IdMatches(cart, cid) && !hasProduct {
      products := products + [LineItem(pid, 1)];
    }
    updated := cart.(products := products);
  }

  /** `carts.map(...)` with the callback above: every cart is passed through it, in order. */
  method UpdateCarts(carts: seq<Cart>, cid: Number, pid: Number) returns (updated: seq<Cart>)
    ensures updated == AddProduct(carts, cid, pid)
  {
    AddProductPointwise(carts, cid, pid);
    updated := [];
    var i := 0;
    while i < |carts|
      invariant 0 <= i <= |carts|
      invariant |updated| == i
      invariant forall j :: 0 <= j < i ==> updated[j] == UpdatedCart(carts[j], cid, pid)
    {
      var cart := UpdateCart(carts[i], cid, pid);
      updated := updated + [cart];
      i := i + 1;
    }
  }

  // ---------------------------------------------------------------------------
  // The store

  class CartsManager {
    /** The contents of the cart file. */
    var stored: FileState

    constructor (initial: FileState)
      ensures stored == initial
    {
      stored := initial;
    }

    /** All carts: the stored list, or no carts when the file is missing, unreadable, empty or not a list. */
    function GetCarts(): (carts: seq<Cart>)
      reads this
      ensures stored.Ok? ==> carts == stored.carts
      ensures !stored.Ok? ==> carts == []
    {
      match stored
      case Ok(list) => list
      case _ => []
    }

    /** The first cart with the given id, compared strictly, or a not-found record carrying that id. */
    function GetCartById(id: Arg): (r: CartLookup)
      reads this
      ensures r.NotFound? <==> forall i :: 0 <= i < |GetCarts()| ==> !HasId(GetCarts()[i], id)
      ensures r.NotFound? ==> r.error == CartNotFound && r.cartId == id
      ensures r.Found? ==> exists i :: IsFirstWithId(GetCarts(), id, i) && r.cart == GetCarts()[i]
    {
      var cart := MatchingCarts(GetCarts(), id);
      if |cart| == 0 then NotFound(CartNotFound, id) else Found(cart[0])
    }

    /** The next cart id: one more than the largest id in use, and 1 for an empty collection. */
    method GetId(fileCarts: seq<Cart>) returns (id: int)
      ensures id == MaxId(fileCarts) + 1
      ensures id >= 1
      ensures forall i :: 0 <= i < |fileCarts| ==> fileCarts[i].id < id
      ensures fileCarts == [] ==> id == 1
    {
      var maxId := 0;
      if |fileCarts| > 0 {
        var i := 0;
        while i < |fileCarts|
          invariant 0 <= i <= |fileCarts|
          invariant maxId == MaxId(fileCarts[..i])
        {
          assert fileCarts[..i + 1][..i] == fileCarts[..i];
          if fileCarts[i].id > maxId {
            maxId := fileCarts[i].id;
          }
          i := i + 1;
        }
        assert fileCarts[..i] == fileCarts;
      }
      id := maxId + 1;
    }

    /** Overwrites the file with the whole list; what is read afterwards is that list. */
    method UpdateFileCarts(newCartsList: seq<Cart>) returns (written: seq<Cart>)
      modifies this
      ensures stored == Ok(newCartsList)
      ensures GetCarts() == newCartsList
      ensures written == newCartsList
    {
      stored := Ok(newCartsList);
      written := newCartsList;
    }

    /** Creates a cart with the next id and no products, after all existing carts. */
    method AddCart() returns (newCart: Cart)
      modifies this
      ensures newCart == Cart(MaxId(old(GetCarts())) + 1, [])
      ensures forall i :: 0 <= i < |old(GetCarts())| ==> old(GetCarts())[i].id < newCart.id
      ensures stored == Ok(old(GetCarts()) + [newCart])
      ensures GetCartById(NumberArg(Int(newCart.id))) == Found(newCart)
    {
      var carts := GetCarts();
      var id := GetId(carts);
      newCart := Cart(id, []);
      AppendedIsFirst(carts, newCart);
      carts := carts + [newCart];
      var _ := UpdateFileCarts(carts);
    }

    /**
     * Adds one unit of product `pid` to every cart whose id is `cid`, both
     * normalised with `parseInt`, stores the whole collection and returns it.
     */
    method AddProductToCart(cid: Arg, pid: Arg) returns (newCartsList: seq<Cart>)
      modifies this
      ensures newCartsList == AddProduct(old(GetCarts()), ParseInt(cid), ParseInt(pid))
      ensures stored == Ok(newCartsList)
    {
      var carts := GetCarts();
      newCartsList := UpdateCarts(carts, ParseInt(cid), ParseInt(pid));
      var _ := UpdateFileCarts(newCartsList);
    }
  }
}
