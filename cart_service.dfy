/** The cart service (src/services/cart.service.js): one cart per user, keyed by the
    user's email, holding line items that freeze the product (its id and cost) at the
    time it was added; and checkout, which debits the user's wallet by the cart total
    and empties the cart. */
module CartService {
  import opened Errors
  import opened UserModel
  import opened UserService

  /** A product id; only equality between ids matters. */
  type ProductId(==)

  /** A catalog product: only its id and its unit cost matter to the cart. */
  datatype Product = Product(id: ProductId, cost: int)

  /** A line item: a copy of the product as it was when added, and a quantity. */
  datatype CartItem = CartItem(product: Product, quantity: int)

  /** A cart as the operations return it. */
  datatype Cart = Cart(email: string, cartItems: seq<CartItem>)

  // The errors the operations throw, with the messages the code uses.
  const NoCart := ApiError(StatusNotFound, "User does not have a cart")
  const CartCreationFailed := ApiError(StatusInternalServerError, "Something went wrong while creating cart")
  const AlreadyInCart := ApiError(StatusBadRequest, "Product already in cart")
  const NotInDb := ApiError(StatusBadRequest, "Product doesn't exist in DB")
  const NoCartToUpdate := ApiError(StatusBadRequest, "User does not have a cart. Use POST to create cart and add a product")
  const NotInDatabase := ApiError(StatusBadRequest, "Product doesn't exist in database")
  const NotInCart := ApiError(StatusBadRequest, "Product not in cart")
  const NoCartToDelete := ApiError(StatusBadRequest, "User does not have a cart")
  const EmptyCart := ApiError(StatusBadRequest, "Cart does not have any products")
  const AddressNotSet := ApiError(StatusBadRequest, "Address is not set")
  const InsufficientBalance := ApiError(StatusBadRequest, "User does not have sufficient balance")

  // ---------------------------------------------------------------------------
  // Lookups over the items
  // ---------------------------------------------------------------------------

  /** `cartItems.some(...)`: some item is for that product. */
  predicate InCart(items: seq<CartItem>, productId: ProductId)
  {
    exists i :: 0 <= i < |items| && items[i].product.id == productId
  }

  /** `cartItems.findIndex(...)`: the position of the first item for that product, or -1 when there is none. */
  function FindIndex(items: seq<CartItem>, productId: ProductId): (k: int)
    ensures -1 <= k < |items|
    ensures k == -1 <==> !InCart(items, productId)
    ensures 0 <= k ==> items[k].product.id == productId
    ensures 0 <= k ==> forall i :: 0 <= i < k ==> items[i].product.id != productId
  {
    if items == [] then -1
    else if items[0].product.id == productId then 0
    else
      var k := FindIndex(items[1..], productId);
      if k == -1 then -1 else k + 1
  }

  /** No product appears in two line items. */
  predicate DistinctProducts(items: seq<CartItem>)
  {
    forall i, j :: 0 <= i < j < |items| ==> items[i].product.id != items[j].product.id
  }

  /** In a cart without duplicates the item found for a product is the only one for it. */
  lemma FoundItemIsTheOnlyOne(items: seq<CartItem>, productId: ProductId, i: nat)
    requires DistinctProducts(items)
    requires i < |items| && items[i].product.id == productId
    ensures FindIndex(items, productId) == i
  {
  }

  // ---------------------------------------------------------------------------
  // The cart total
  // ---------------------------------------------------------------------------

  /** What one line item costs: the frozen unit cost times the quantity. */
  function LineCost(item: CartItem): int
  {
    item.product.cost * item.quantity
  }

  /** The `reduce` that computes the total: a left fold from `acc`. */
  function Reduce(acc: int, items: seq<CartItem>): int
    decreases |items|
  {
    if items == [] then acc else Reduce(acc + LineCost(items[0]), items[1..])
  }

  /** The cart total as checkout computes it. */
  function Total(items: seq<CartItem>): int
  {
    Reduce(0, items)
  }

  /** The sum of the line costs, as a plain recursive definition. */
  function Sum(items: seq<CartItem>): int
  {
    if items == [] then 0 else LineCost(items[0]) + Sum(items[1..])
  }

  /** The fold started from `acc` is `acc` plus the sum of the line costs. */
  lemma {:induction false} ReduceIsSum(acc: int, items: seq<CartItem>)
    ensures Reduce(acc, items) == acc + Sum(items)
    decreases |items|
  {
    if items != [] {
      ReduceIsSum(acc + LineCost(items[0]), items[1..]);
    }
  }

  /** The total checkout computes is the sum of cost times quantity over the items. */
  lemma TotalIsSum(items: seq<CartItem>)
    ensures Total(items) == Sum(items)
  {
    ReduceIsSum(0, items);
  }

  lemma {:induction false} SumConcat(a: seq<CartItem>, b: seq<CartItem>)
    ensures Sum(a + b) == Sum(a) + Sum(b)
    decreases |a|
  {
    if a != [] {
      assert (a + b)[0] == a[0] && (a + b)[1..] == a[1..] + b;
      SumConcat(a[1..], b);
    } else {
      assert a + b == b;
    }
  }

  /** The total of two item lists put together is the sum of their totals. */
  lemma TotalConcat(a: seq<CartItem>, b: seq<CartItem>)
    ensures Total(a + b) == Total(a) + Total(b)
  {
    TotalIsSum(a + b);
    TotalIsSum(a);
    TotalIsSum(b);
    SumConcat(a, b);
  }

  /** The total splits around any one line item. */
  lemma TotalAround(items: seq<CartItem>, k: nat)
    requires k < |items|
    ensures Total(items) == Total(items[..k]) + LineCost(items[k]) + Total(items[k + 1..])
  {
    assert items == items[..k] + ([items[k]] + items[k + 1..]);
    TotalConcat(items[..k], [items[k]] + items[k + 1..]);
    TotalConcat([items[k]], items[k + 1..]);
    TotalIsSum([items[k]]);
    assert [items[k]][1..] == [];
  }

  /** The total of two items is the sum of their line costs. */
  lemma TotalOfTwo(x: CartItem, y: CartItem)
    ensures Total([x, y]) == LineCost(x) + LineCost(y)
  {
    assert [x, y][1..] == [y] && [y][1..] == [];
    assert Reduce(LineCost(x), [y]) == Reduce(LineCost(x) + LineCost(y), []);
  }

  /** No item has a negative cost or a negative quantity (the service itself does not require it). */
  predicate NonNegativeItems(items: seq<CartItem>)
  {
    forall i :: 0 <= i < |items| ==> items[i].product.cost >= 0 && items[i].quantity >= 0
  }

  /** Without negative costs or quantities the total is not negative. */
  lemma {:induction false} TotalNonNegative(items: seq<CartItem>)
    requires NonNegativeItems(items)
    ensures Total(items) >= 0
    decreases |items|
  {
    TotalIsSum(items);
    if items != [] {
      TotalNonNegative(items[1..]);
      TotalIsSum(items[1..]);
    }
  }

  // ---------------------------------------------------------------------------
  // The three changes to a cart's items
  // ---------------------------------------------------------------------------

  /** The items after `cartItems[k].quantity = quantity`. */
  function WithQuantity(items: seq<CartItem>, k: nat, quantity: int): seq<CartItem>
    requires k < |items|
  {
    items[k := CartItem(items[k].product, quantity)]
  }

  /** The items after `cartItems.splice(k, 1)`. */
  function Without(items: seq<CartItem>, k: nat): seq<CartItem>
    requires k < |items|
  {
    items[..k] + items[k + 1..]
  }

  /** Appending an item for a product not yet in the cart keeps products distinct, and the new
      item is the one line for that product, at the end. */
  lemma AppendKeepsDistinct(items: seq<CartItem>, product: Product, quantity: int)
    requires DistinctProducts(items) && !InCart(items, product.id)
    ensures DistinctProducts(items + [CartItem(product, quantity)])
    ensures FindIndex(items + [CartItem(product, quantity)], product.id) == |items|
  {
    var after := items + [CartItem(product, quantity)];
    FoundItemIsTheOnlyOne(after, product.id, |items|);
  }

  /** Setting the quantity of item k leaves the length, the product of every item and every
      other item as they were. */
  lemma WithQuantityKeepsItems(items: seq<CartItem>, k: nat, quantity: int)
    requires k < |items|
    ensures |WithQuantity(items, k, quantity)| == |items|
    ensures WithQuantity(items, k, quantity)[k] == CartItem(items[k].product, quantity)
    ensures forall i :: 0 <= i < |items| && i != k ==> WithQuantity(items, k, quantity)[i] == items[i]
    ensures DistinctProducts(items) ==> DistinctProducts(WithQuantity(items, k, quantity))
  {
  }

  /** Setting the quantity of item k moves the total by its cost times the change of quantity. */
  lemma WithQuantityTotal(items: seq<CartItem>, k: nat, quantity: int)
    requires k < |items|
    ensures Total(WithQuantity(items, k, quantity)) == Total(items) + items[k].product.cost * (quantity - items[k].quantity)
  {
    var after := WithQuantity(items, k, quantity);
    TotalAround(items, k);
    TotalAround(after, k);
    assert after[..k] == items[..k];
    assert after[k + 1..] == items[k + 1..];
  }

  /** Setting the quantity of the item found for a product replaces that quantity (it does not
      add to it) and changes nothing else: same length, same products in the same order, the
      other items unchanged, still exactly one line for the product, and the total moves by the
      cost times the change of quantity. */
  lemma QuantityReplaced(items: seq<CartItem>, productId: ProductId, quantity: int)
    requires DistinctProducts(items) && InCart(items, productId)
    ensures var k := FindIndex(items, productId);
      var after := WithQuantity(items, k, quantity);
      && |after| == |items|
      && after[k] == CartItem(items[k].product, quantity)
      && (forall i :: 0 <= i < |items| && i != k ==> after[i] == items[i])
      && (forall i :: 0 <= i < |after| && after[i].product.id == productId ==> i == k)
      && DistinctProducts(after)
      && Total(after) == Total(items) + items[k].product.cost * (quantity - items[k].quantity)
  {
    var k := FindIndex(items, productId);
    WithQuantityKeepsItems(items, k, quantity);
    WithQuantityTotal(items, k, quantity);
  }

  /** Splicing out item k keeps every other item in its order. */
  lemma WithoutKeepsOrder(items: seq<CartItem>, k: nat)
    requires k < |items|
    ensures |Without(items, k)| == |items| - 1
    ensures forall i :: 0 <= i < |items| - 1 ==> Without(items, k)[i] == items[if i < k then i else i + 1]
    ensures multiset(Without(items, k)) + multiset{items[k]} == multiset(items)
    ensures DistinctProducts(items) ==> DistinctProducts(Without(items, k))
  {
    assert items == items[..k] + [items[k]] + items[k + 1..];
  }

  /** Splicing out item k lowers the total by that item's line cost. */
  lemma WithoutTotal(items: seq<CartItem>, k: nat)
    requires k < |items|
    ensures Total(Without(items, k)) == Total(items) - LineCost(items[k])
  {
    TotalAround(items, k);
    TotalConcat(items[..k], items[k + 1..]);
  }

  /** Splicing out item k keeps every other product in the cart exactly when it was there. */
  lemma WithoutKeepsOtherProducts(items: seq<CartItem>, k: nat, p: ProductId)
    requires k < |items| && p != items[k].product.id
    ensures InCart(Without(items, k), p) <==> InCart(items, p)
  {
    var after := Without(items, k);
    WithoutKeepsOrder(items, k);
    if InCart(items, p) {
      var i :| 0 <= i < |items| && items[i].product.id == p;
      assert after[if i < k then i else i - 1] == items[i];
    }
    if InCart(after, p) {
      var i :| 0 <= i < |after| && after[i].product.id == p;
      assert after[i] == items[if i < k then i else i + 1];
    }
  }

  /** In a cart without duplicates, splicing out item k leaves no item for its product. */
  lemma WithoutDropsProduct(items: seq<CartItem>, k: nat)
    requires k < |items| && DistinctProducts(items)
    ensures !InCart(Without(items, k), items[k].product.id)
  {
    var after := Without(items, k);
    WithoutKeepsOrder(items, k);
    forall i | 0 <= i < |after|
      ensures after[i].product.id != items[k].product.id
    {
      assert after[i] == items[if i < k then i else i + 1];
    }
  }

  /** Removing the item found for a product removes exactly that item: one item fewer, the
      others kept in their order, the product no longer in the cart, every other product in it
      exactly when it was before, and the total lowered by that item's line cost. */
  lemma ItemRemoved(items: seq<CartItem>, productId: ProductId)
    requires DistinctProducts(items) && InCart(items, productId)
    ensures var k := FindIndex(items, productId);
      var after := Without(items, k);
      && |after| == |items| - 1
      && (forall i :: 0 <= i < |after| ==> after[i] == items[if i < k then i else i + 1])
      && multiset(after) + multiset{items[k]} == multiset(items)
      && !InCart(after, productId)
      && DistinctProducts(after)
      && (forall p :: p != productId ==> (InCart(after, p) <==> InCart(items, p)))
      && Total(after) == Total(items) - LineCost(items[k])
  {
    var k := FindIndex(items, productId);
    WithoutKeepsOrder(items, k);
    WithoutTotal(items, k);
    WithoutDropsProduct(items, k);
    forall p | p != productId
      ensures InCart(Without(items, k), p) <==> InCart(items, p)
    {
      WithoutKeepsOtherProducts(items, k, p);
    }
  }

  /** The items of the cart the add operation works on: the stored ones, or those of the
      empty cart it creates. */
  function ItemsOrEmpty(carts: map<string, seq<CartItem>>, email: string): seq<CartItem>
  {
    if email in carts then carts[email] else []
  }

  /** Checkout's balance guard `total > user.walletMoney` does not hold: the wallet is a number
      at least the total, or it is not a number at all, against which every comparison is false. */
  predicate Affords(wallet: Option<int>, total: int)
  {
    wallet.None? || total <= wallet.value
  }

  // ---------------------------------------------------------------------------
  // The service
  // ---------------------------------------------------------------------------

  /** The cart collection, keyed by user email, and the read-only product catalog. */
  class Service {
    var carts: map<string, seq<CartItem>>
    const catalog: map<ProductId, Product>

    /** The catalog is keyed by product id, and no cart holds two items for one product. */
    ghost predicate Valid()
      reads this
    {
      && (forall id :: id in catalog ==> catalog[id].id == id)
      && (forall email :: email in carts ==> DistinctProducts(carts[email]))
    }

    constructor (catalog: map<ProductId, Product>)
      requires forall id :: id in catalog ==> catalog[id].id == id
      ensures Valid() && this.catalog == catalog && carts == map[]
    {
      this.catalog := catalog;
      carts := map[];
    }

    /** `getCartByUser`: the cart keyed by the user's email, or NOT_FOUND when there is none. */
    function GetCartByUser(user: User): (r: Result<Cart>)
      reads this
      ensures r.Success? <==> user.email in carts
      ensures r.Success? ==> r.value == Cart(user.email, carts[user.email])
      ensures r.Failure? ==> r.error == NoCart
    {
      if user.email in carts then Success(Cart(user.email, carts[user.email])) else Failure(NoCart)
    }

    /** `addProductToCart`. A user without a cart first gets an empty one (when creating it fails,
        the operation fails with 500 and nothing changes); that cart stays even when a later check
        fails. A product already in the cart, or one missing from the catalog, is refused and the
        items are unchanged; otherwise one item, a copy of the catalog product with the given
        quantity, is appended. Only this user's cart is touched, and products stay distinct.
        `created` says whether the store managed to create the cart. */
    method AddProductToCart(user: User, productId: ProductId, quantity: int, created: bool)
      returns (r: Result<Cart>)
      requires Valid()
      modifies this
      ensures Valid()
      ensures r.Success? <==>
        && (user.email in old(carts) || created)
        && !InCart(ItemsOrEmpty(old(carts), user.email), productId)
        && productId in catalog
      ensures user.email !in old(carts) && !created ==>
        r == Failure(CartCreationFailed) && carts == old(carts)
      ensures (user.email in old(carts) || created) && InCart(ItemsOrEmpty(old(carts), user.email), productId) ==>
        r == Failure(AlreadyInCart) && carts == old(carts)[user.email := ItemsOrEmpty(old(carts), user.email)]
      ensures (user.email in old(carts) || created) && !InCart(ItemsOrEmpty(old(carts), user.email), productId)
              && productId !in catalog ==>
        r == Failure(NotInDb) && carts == old(carts)[user.email := ItemsOrEmpty(old(carts), user.email)]
      ensures r.Success? ==>
        && carts == old(carts)[user.email := ItemsOrEmpty(old(carts), user.email) + [CartItem(catalog[productId], quantity)]]
        && r.value == Cart(user.email, carts[user.email])
    {
      if user.email !in carts {
        if !created {
          return Failure(CartCreationFailed);
        }
        carts := carts[user.email := []];
      }
      var items := carts[user.email];
      // The guard `!userCart.cartItems.length === 0` compares a boolean with a number and never holds.
      if FindIndex(items, productId) != -1 {
        return Failure(AlreadyInCart);
      }
      if productId !in catalog {
        return Failure(NotInDb);
      }
      AppendKeepsDistinct(items, catalog[productId], quantity);
      carts := carts[user.email := items + [CartItem(catalog[productId], quantity)]];
      r := Success(Cart(user.email, carts[user.email]));
    }

    /** `updateProductInCart`. Refused, with nothing changed, when the user has no cart, then when
        the product is not in the catalog, then when it is not in the cart; otherwise the quantity
        of the product's item is replaced by `quantity` (see QuantityReplaced). */
    method UpdateProductInCart(user: User, productId: ProductId, quantity: int) returns (r: Result<Cart>)
      requires Valid()
      modifies this
      ensures Valid()
      ensures r.Success? <==>
        user.email in old(carts) && productId in catalog && InCart(old(carts)[user.email], productId)
      ensures r.Failure? ==> carts == old(carts)
      ensures user.email !in old(carts) ==> r == Failure(NoCartToUpdate)
      ensures user.email in old(carts) && productId !in catalog ==> r == Failure(NotInDatabase)
      ensures user.email in old(carts) && productId in catalog && !InCart(old(carts)[user.email], productId) ==>
        r == Failure(NotInCart)
      ensures r.Success? ==>
        && carts == old(carts)[user.email := WithQuantity(old(carts)[user.email],
                                                          FindIndex(old(carts)[user.email], productId), quantity)]
        && r.value == Cart(user.email, carts[user.email])
    {
      if user.email !in carts {
        return Failure(NoCartToUpdate);
      }
      if productId !in catalog {
        return Failure(NotInDatabase);
      }
      var items := carts[user.email];
      var k := FindIndex(items, productId);
      if k == -1 {
        return Failure(NotInCart);
      }
      QuantityReplaced(items, productId, quantity);
      carts := carts[user.email := WithQuantity(items, k, quantity)];
      r := Success(Cart(user.email, carts[user.email]));
    }

    /** `deleteProductFromCart`. Refused, with nothing changed, when the user has no cart, then when
        the product is not in it (the catalog is not consulted); otherwise the product's item is
        spliced out (see ItemRemoved). */
    method DeleteProductFromCart(user: User, productId: ProductId) returns (r: Outcome)
      requires Valid()
      modifies this
      ensures Valid()
      ensures r.Pass? <==> user.email in old(carts) && InCart(old(carts)[user.email], productId)
      ensures r.Fail? ==> carts == old(carts)
      ensures user.email !in old(carts) ==> r == Fail(NoCartToDelete)
      ensures user.email in old(carts) && !InCart(old(carts)[user.email], productId) ==> r == Fail(NotInCart)
      ensures r.Pass? ==>
        carts == old(carts)[user.email := Without(old(carts)[user.email], FindIndex(old(carts)[user.email], productId))]
    {
      if user.email !in carts {
        return Fail(NoCartToDelete);
      }
      var items := carts[user.email];
      var k := FindIndex(items, productId);
      if k == -1 {
        return Fail(NotInCart);
      }
      ItemRemoved(items, productId);
      carts := carts[user.email := Without(items, k)];
      r := Pass;
    }

    /** `checkout`. Every guard comes before any change: no cart (NOT_FOUND), then an empty cart,
        then an unset address, then a total above the wallet; on a refusal neither the wallet nor
        any cart changes. Otherwise the user's cart is emptied but kept, and a numeric wallet is
        debited by the total of the frozen costs times the quantities, so it ends at zero or above.
        A wallet that is not a number passes the balance guard and stays not a number. */
    method Checkout(user: User) returns (r: Outcome)
      requires Valid()
      modifies this, user
      ensures Valid()
      ensures user.address == old(user.address)
      ensures r.Pass? <==>
        && user.email in old(carts)
        && old(carts)[user.email] != []
        && old(user.HasSetNonDefaultAddress())
        && Affords(old(user.walletMoney), Total(old(carts)[user.email]))
      ensures r.Fail? ==> carts == old(carts) && user.walletMoney == old(user.walletMoney)
      ensures user.email !in old(carts) ==> r == Fail(NoCart)
      ensures user.email in old(carts) && old(carts)[user.email] == [] ==> r == Fail(EmptyCart)
      ensures user.email in old(carts) && old(carts)[user.email] != [] && !old(user.HasSetNonDefaultAddress()) ==>
        r == Fail(AddressNotSet)
      ensures user.email in old(carts) && old(carts)[user.email] != [] && old(user.HasSetNonDefaultAddress())
              && old(user.walletMoney).Some? && Total(old(carts)[user.email]) > old(user.walletMoney).value ==>
        r == Fail(InsufficientBalance)
      ensures r.Pass? ==> carts == old(carts)[user.email := []]
      ensures r.Pass? && old(user.walletMoney).Some? ==>
        && user.walletMoney == Some(old(user.walletMoney).value - Sum(old(carts)[user.email]))
        && 0 <= user.walletMoney.value
      ensures r.Pass? && old(user.walletMoney).None? ==> user.walletMoney == None
      ensures r.Pass? && old(user.walletMoney).Some? && NonNegativeItems(old(carts)[user.email]) ==>
        user.walletMoney.value <= old(user.walletMoney).value
    {
      if user.email !in carts {
        return Fail(NoCart);
      }
      var items := carts[user.email];
      if |items| == 0 {
        return Fail(EmptyCart);
      }
      if !user.HasSetNonDefaultAddress() {
        return Fail(AddressNotSet);
      }
      var total := Total(items);
      if user.walletMoney.Some? && total > user.walletMoney.value {
        return Fail(InsufficientBalance);
      }
      TotalIsSum(items);
      if NonNegativeItems(items) {
        TotalNonNegative(items);
      }
      if user.walletMoney.Some? {
        user.walletMoney := Some(user.walletMoney.value - total);
      }
      carts := carts[user.email := []];
      r := Pass;
    }
  }

  /** The worked example's starting point: a service on two products costing 10 and 5, in which
      `user` has added 2 of the first and 3 of the second. */
  method ShopWithTwoItems(a: ProductId, b: ProductId, user: User) returns (shop: Service)
    requires a != b
    ensures fresh(shop) && shop.Valid()
    ensures shop.catalog == map[a := Product(a, 10), b := Product(b, 5)]
    ensures shop.carts == map[user.email := [CartItem(Product(a, 10), 2), CartItem(Product(b, 5), 3)]]
  {
    shop := new Service(map[a := Product(a, 10), b := Product(b, 5)]);
    var added := shop.AddProductToCart(user, a, 2, true);
    assert shop.carts[user.email] == [CartItem(Product(a, 10), 2)];
    assert !InCart(shop.carts[user.email], b);
    assert ItemsOrEmpty(shop.carts, user.email) == [CartItem(Product(a, 10), 2)];
    added := shop.AddProductToCart(user, b, 3, true);
    assert [CartItem(Product(a, 10), 2)] + [CartItem(shop.catalog[b], 3)]
        == [CartItem(Product(a, 10), 2), CartItem(Product(b, 5), 3)];
  }

  /** A user with 40 in the wallet and an address, whose cart holds 2 items at 10 and 3 at 5:
      adding the first product again is refused; checkout pays 35, leaves 5 and empties the cart. */
  method CheckoutPaysTotal(a: ProductId, b: ProductId)
    returns (again: Result<Cart>, paid: Outcome, left: Option<int>, emptied: seq<CartItem>)
    requires a != b
    ensures again == Failure(AlreadyInCart)
    ensures paid == Pass && left == Some(5) && emptied == []
  {
    var user := new User(0, "Rich", "rich@example.com", "hash", Some(40), "1 Main Street");
    var shop := ShopWithTwoItems(a, b, user);
    var bought := shop.carts[user.email];
    assert ItemsOrEmpty(shop.carts, user.email) == bought && bought[0].product.id == a;
    again := shop.AddProductToCart(user, a, 1, true);
    TotalOfTwo(bought[0], bought[1]);
    TotalIsSum(bought);
    paid := shop.Checkout(user);
    left := user.walletMoney;
    emptied := shop.carts[user.email];
  }

  /** The same cart with only 10 in the wallet: checkout is refused for the balance, and neither
      the wallet nor the cart changes. */
  method CheckoutRefusesShortWallet(a: ProductId, b: ProductId)
    returns (refused: Outcome, kept: Option<int>, items: seq<CartItem>)
    requires a != b
    ensures refused == Fail(InsufficientBalance) && kept == Some(10)
    ensures items == [CartItem(Product(a, 10), 2), CartItem(Product(b, 5), 3)]
  {
    var user := new User(1, "Poor", "poor@example.com", "hash", Some(10), "2 Main Street");
    var shop := ShopWithTwoItems(a, b, user);
    TotalOfTwo(shop.carts[user.email][0], shop.carts[user.email][1]);
    refused := shop.Checkout(user);
    kept := user.walletMoney;
    items := shop.carts[user.email];
  }

  /** A user whose only add names a product missing from the catalog keeps the empty cart that
      add created; checkout then reports the empty cart, although the address is unset and the
      wallet is 0. */
  method EmptyCartCheckedFirst(a: ProductId, b: ProductId, missing: ProductId)
    returns (added: Result<Cart>, empty: Outcome)
    requires a != b && missing != a && missing != b
    ensures added == Failure(NotInDb)
    ensures empty == Fail(EmptyCart)
  {
    var shop := new Service(map[a := Product(a, 10), b := Product(b, 5)]);
    var user := new User(2, "New", "new@example.com", "hash", Some(0), DefaultAddress);
    added := shop.AddProductToCart(user, missing, 1, true);
    empty := shop.Checkout(user);
  }

  /** A user registered without a wallet, as in the documented registration body, is reported
      the default of 500 but stores no number. With an address set, checkout of a cart costing
      600 then passes the balance guard, and the stored wallet is still not a number. */
  method UnfundedWalletNeverRefused(a: ProductId)
    returns (reported: int, added: Result<Cart>, paid: Outcome, after: Option<int>)
    ensures reported == DefaultWalletMoney && Total([CartItem(Product(a, 600), 1)]) > reported
    ensures added.Success? && paid == Pass && after == None
  {
    var shop := new Service(map[a := Product(a, 600)]);
    var user := new User(3, "Broke", "broke@example.com", "hash", None, "3 Main Street");
    reported := ReportedWalletMoney(user.walletMoney);
    added := shop.AddProductToCart(user, a, 1, true);
    var item := CartItem(Product(a, 600), 1);
    assert Total([item]) == 600 by {
      assert [item][1..] == [];
      assert Reduce(0, [item]) == Reduce(LineCost(item), []);
    }
    paid := shop.Checkout(user);
    after := user.walletMoney;
  }
}
