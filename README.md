# Cart and checkout of the e-commerce backend, in Dafny

This project models the core of a small Express/Mongoose shop backend. Each user has one
cart, keyed by the user's email. A cart is an ordered list of line items, and each item holds
a frozen copy of a product (its id and unit cost) plus a quantity. The cart service has five
operations:

- look up the cart;
- add a product, creating the cart on first use;
- replace the quantity of a product already in the cart;
- remove a product from the cart;
- check out. Checkout refuses an empty cart, an unset address or a wallet holding a number
  below the total. Otherwise it debits a numeric wallet by Σ cost × quantity and empties the
  cart.

Three smaller pieces of the user side feed it:

- the user schema: the trim and lower-case setters, the password validators, the address
  default, `hasSetNonDefaultAddress` and `isEmailTaken`;
- `createUser`, with its duplicate-email check and its wallet default;
- the user lookups and `setAddress`.

Files and modules:

- `errors.dfy` (module `Errors`): the `ApiError` status/message pairs, Mongoose's validation
  error, and the `Result`, `Outcome` and `Option` wrappers.
- `user_model.dfy` (module `UserModel`): the schema.
  - `User` is a class. Its identity, name, email and password are `const`. `walletMoney` and
    `address` are `var`, because checkout and `setAddress` update them in place.
- `user_service.dfy` (module `UserService`): the `users` collection as class `UserStore`,
  holding a `seq<User>` and an id counter. It also holds `createUser`, the lookups, and
  `SetAddress`.
- `cart_service.dfy` (module `CartService`):
  - the cart datatypes;
  - the `some`, `findIndex` and `reduce` helpers as functions, with lemmas about them;
  - class `Service`, which holds the cart collection (`map<string, seq<CartItem>>`) and the
    read-only catalog (`map<ProductId, Product>`). Its methods change the cart map in place,
    as the source's `push`, indexed assignment, `splice` and `cartItems = []` do.

Every failing branch returns the `ApiError` the code throws, with the message the code uses.
Two of these differ from the doc comments above the functions: "Product already in cart"
(cart.service.js:76) and "Product doesn't exist in DB" (:81). The guard
`!userCart.cartItems.length === 0` at cart.service.js:69 compares a boolean with a number, so
it never fires. The model has no branch for it.

Email values go through the `trim` and `lowercase` setters, both when stored and when used
in a query (Mongoose casts query values through the path's setters). The password validators
run on the value `createUser` stores, and that value is the bcrypt hash, not the password.
`BcryptHashPassesPasswordRule` shows that every hash of bcrypt's shape passes them.

The `walletMoney` path has mixed type and no default (user.model.js:51), and `createUser`
stores the body's value as it is. A stored wallet is therefore `Option<int>`: a number, or None
for undefined or NaN. It is undefined when the body had none, as in the documented registration
body (user.service.js:45-50), and NaN after arithmetic on that. `createUser` reports the default
of 500 for such a user, but the stored wallet stays None. Checkout's `total > user.walletMoney`
(cart.service.js:213) is false against undefined or NaN, so checkout never refuses such a user
for balance, and `-=` leaves the wallet NaN. `UnfundedWalletNeverRefused` shows this on a cart
costing 600.

A body wallet of null, `""` or `false` is passed as `Some(0)`. JavaScript's `>` and `-=` turn
each of them into 0, and `parseInt` of each is NaN, so `createUser` reports the default. That is
exactly what 0 gets.

## Model

| member | source | states |
|---|---|---|
| `CartService.Service.GetCartByUser` | src/services/cart.service.js:19-27 | succeeds exactly when a cart is stored under the user's email, returning that cart's items; otherwise NOT_FOUND "User does not have a cart"; reads only |
| `CartService.Service.AddProductToCart` | src/services/cart.service.js:53-89 | with no cart, a failed creation gives 500 and changes nothing; otherwise an empty cart is created first and stays even if a later check fails; a product already in the cart gives "Product already in cart"; one missing from the catalog gives "Product doesn't exist in DB"; both leave the items unchanged; success appends exactly one item (the catalog product, the quantity) at the end; only this user's cart changes; products stay distinct (`Valid`) |
| `CartService.Service.UpdateProductInCart` | src/services/cart.service.js:115-150 | guards in order: no cart, product not in catalog, product not in cart, each with its message and with nothing changed; success succeeds exactly when all three pass and sets the found item's quantity |
| `CartService.Service.DeleteProductFromCart` | src/services/cart.service.js:169-191 | no cart, then product not in cart, each refused with nothing changed; the catalog is not consulted; success splices out the found item |
| `CartService.Service.Checkout` | src/services/cart.service.js:193-223 | guards in order: no cart (NOT_FOUND), empty cart, address not set, a numeric wallet below the total; any refusal leaves the wallet, the address and every cart unchanged; success empties the cart, which is kept; it debits a numeric wallet by Σ cost × quantity, leaving it ≥ 0 (and no larger when no cost or quantity is negative), and leaves a non-numeric wallet non-numeric |
| `CartService.Affords` | src/services/cart.service.js:213 | the balance guard does not fire: the wallet is a number at least the total, or not a number at all |
| `CartService.InCart` | src/services/cart.service.js:72-74 | some item's product id is the given one; `FindIndex` is -1 exactly when this is false |
| `CartService.FindIndex` | src/services/cart.service.js:135-137 | -1 exactly when no item is for the product; otherwise the position of the first item for it |
| `CartService.AppendKeepsDistinct` | src/services/cart.service.js:72-86 | appending an item for a product not yet in the cart keeps product ids distinct, and the new item is the one found for that product |
| `CartService.QuantityReplaced` | src/services/cart.service.js:135-146 | setting the quantity replaces it rather than adding to it: same length and order, the other items unchanged, one line for the product, total moved by cost × (new − old quantity) |
| `CartService.ItemRemoved` | src/services/cart.service.js:177-187 | the splice removes exactly the found item: length − 1, the others in their order, same multiset less that item, the product gone, every other product present exactly as before, total lowered by the item's line cost |
| `CartService.Reduce` | src/services/cart.service.js:208-211 | the left fold adding each item's cost × quantity to the accumulator, first item first; `ReduceIsSum` relates it to `Sum` |
| `CartService.Total` | src/services/cart.service.js:208-211 | the fold started from 0; `TotalIsSum` shows it equals Σ cost × quantity |
| `CartService.WithQuantity` | src/services/cart.service.js:143 | item k with the same product and the new quantity; `WithQuantityKeepsItems` and `QuantityReplaced` state what else stays |
| `CartService.Without` | src/services/cart.service.js:185 | the items before k followed by those after it; `WithoutKeepsOrder` and `ItemRemoved` state the order, multiset and total |
| `CartService.ReduceIsSum` | src/services/cart.service.js:208-211 | the left fold from any start value equals that value plus the sum of cost × quantity |
| `CartService.TotalIsSum` | src/services/cart.service.js:208-211 | the total checkout computes is Σ cost × quantity |
| `CartService.TotalConcat` | src/services/cart.service.js:208-211 | the total of two item lists put together is the sum of their totals |
| `CartService.TotalNonNegative` | src/services/cart.service.js:208-219 | with no negative costs or quantities the total is ≥ 0, so checkout never raises the wallet |
| `CartService.CheckoutPaysTotal` | src/services/cart.service.js:193-222 | items (10 × 2) and (5 × 3) with a wallet of 40 and an address set: a second add of the first product is refused, and checkout passes, leaves 5 and leaves the cart empty |
| `CartService.CheckoutRefusesShortWallet` | src/services/cart.service.js:213-218 | the same cart with a wallet of 10: checkout refuses for the balance, and the wallet and the items are unchanged |
| `CartService.EmptyCartCheckedFirst` | src/services/cart.service.js:54-81 | an add naming a product missing from the catalog fails but leaves an empty cart; checkout then fails with "Cart does not have any products" although the address is unset and the wallet is 0 |
| `CartService.UnfundedWalletNeverRefused` | src/services/cart.service.js:213-219 | a user stored without a wallet is reported 500, yet checkout of a cart totalling 600 passes and the stored wallet stays not a number |
| `UserModel.Trim` | src/models/user.model.js:12-21 | no longer than the input, and neither end of the result is whitespace |
| `UserModel.ToLowerCase` | src/models/user.model.js:17-21 | same length; each character is its ASCII lower-case form, so no upper-case ASCII letter is left |
| `UserModel.TrimStart` | src/models/user.model.js:12-21 | the result is the suffix of the input after its leading whitespace, and does not start with whitespace |
| `UserModel.TrimEnd` | src/models/user.model.js:12-21 | the result is the prefix of the input before its trailing whitespace, and does not end with whitespace |
| `UserModel.TrimIdempotent` | src/models/user.model.js:12-21 | trimming a trimmed value changes nothing |
| `UserModel.TrimLowerCommute` | src/models/user.model.js:17-21 | the two setters of the email path commute |
| `UserModel.NormalizeEmail` | src/models/user.model.js:17-21 | a stored email has no whitespace at either end and no upper-case ASCII letter |
| `UserModel.NormalizeEmailIdempotent` | src/models/user.model.js:17-21 | storing a stored email again leaves it unchanged |
| `UserModel.PasswordRule` | src/models/user.model.js:42-48 | some character is a digit and some character is an ASCII letter |
| `UserModel.PasswordAccepted` | src/models/user.model.js:37-50 | at least 8 characters and `PasswordRule` |
| `UserModel.FailedPaths` | src/models/user.model.js:12-50 | the document validates exactly when name and email are non-empty and the password has at least 8 characters with a digit and an ASCII letter |
| `UserModel.BcryptHashPassesPasswordRule` | src/models/user.model.js:37-50 | any bcrypt-shaped hash is unchanged by trim and passes the minimum length and the letter-and-digit rule |
| `UserModel.User.HasSetNonDefaultAddress` | src/models/user.model.js:87-91 | the address differs from the "ADDRESS_NOT_SET" sentinel; `SetAddress` and `CreateUser` state when it holds |
| `UserModel.IsEmailTaken` | src/models/user.model.js:68-71 | some stored user's email is the queried email after the setters; `GetUserByEmail` is null exactly when it is false |
| `UserModel.EmailTakenByStoredForm` | src/models/user.model.js:68-71 | asking with the stored form of an email gives the same answer as asking with the raw email |
| `UserService.AddressOrDefault` | src/models/user.model.js:52-55 | the body's address when there is one; the sentinel exactly when there is none or the body gave the sentinel |
| `UserService.ReportedWalletMoney` | src/services/user.service.js:67-69 | the stored wallet when it is a non-zero number; the default when it is not a number or is 0; never 0 |
| `UserService.UserStore.GetUserByEmail` | src/services/user.service.js:28-31 | null exactly when `isEmailTaken` is false; otherwise a stored user with the normalised email, the only one |
| `UserService.UserStore.GetUserById` | src/services/user.service.js:14-18 | null exactly when no stored user has the id; otherwise the stored user with it, the only one |
| `UserService.UserStore.GetUserAddressById` | src/services/user.service.js:81-84 | nothing exactly when no user has the id; otherwise that user's id, email and address |
| `UserService.UserStore.CreateUser` | src/services/user.service.js:55-71 | a taken email gives ApiError(200, "Email already taken"), and a failing validator gives its paths; both leave the store and the id counter unchanged. Otherwise the counter moves up by one and exactly one fresh user is appended, with the next id, the trimmed name, the normalised email, the trimmed hash, the body's wallet as given, and the body's address or the default. The returned record carries the stored email and name and the reported wallet, and the new user is what `getUserByEmail` finds. Without an address, `HasSetNonDefaultAddress` is false |
| `UserService.UserStore.Insert` | src/services/user.service.js:62 | storing a user whose email is new and whose id is the counter appends it, moves the counter past it, keeps ids and emails unique, and makes a search for its email find it |
| `UserService.SetAddress` | src/services/user.service.js:91-96 | the address becomes the new one and is returned; the wallet is unchanged; the address guard of checkout passes exactly when the new address is not the default |

## Left out

- Persistence is not modelled: the Mongo connection and each `save()`. Each operation is one
  atomic state change.
  - The unawaited `userCart.save()` (cart.service.js:87) is not modelled.
  - Checkout's two separate saves (:220, :222) are not modelled, and neither is a crash
    between them.
  - Two concurrent checkouts of one user are not modelled.
  - The only store failure modelled is the cart creation failure. The caller passes it in
    as `created`.
- Routing, the HTTP controllers and the request-shape validators are wiring outside the
  core. The cart service does not check that a quantity is positive. The model takes any
  integer, and nothing here shows that a caller checks it. The controller `getUser` reads
  `data.email` before it checks `data` for null. This is not modelled.
- bcrypt is a foreign library with a random salt. `CreateUser` takes the hash as a parameter.
  `isPasswordMatch` is not modelled.
- The `validator` key on the email path is not an option Mongoose runs, so email format is
  not checked. The model does not check it either.
- Product ids are an abstract type with plain equality. The difference between ObjectId
  `.equals` (cart.service.js:73) and `==` (:136, :178) is not modelled. The catalog is fixed
  for the life of a `Service`.
- Costs, quantities and wallets are unbounded integers, not JavaScript floating-point
  numbers. A wallet is a number, or undefined or NaN.
- A body wallet of `true`, or a string other than `""`, is not modelled. `>` and `-=` turn
  such a value into a number (1 for `true`), but `parseInt` reads it differently or gives NaN.
- `UserModel.ToLowerCase`: lower-cases only the ASCII letters. JavaScript's `toLowerCase`
  also maps non-ASCII letters, and a Unicode case table is outside this model.
- `UserModel.FailedPaths`: counts the password's length in characters. Mongoose's
  `minlength` counts UTF-16 code units, so a password with characters outside the Basic
  Multilingual Plane is longer there.
- `UserService.DefaultWalletMoney`: src/config/config.js is not part of this model, so the
  constant is set to 500. Two proofs depend on that value. `ReportedWalletMoney` needs a
  non-zero default for its `m != 0`. `UnfundedWalletNeverRefused` needs a default below 600.
- The cart schema and the product schema are not part of this model. A cart is modelled as
  its email and its items, and a product as its id and its cost.
- Cart operations take the user object from the caller, as the source does. The model does
  not tie that object to the `UserStore`.
- `getUserById` makes an extra `User.find()` whose result is unused. It is not modelled.
