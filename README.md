# Carts store, modelled in Dafny

The system keeps shopping carts in a single file. `CartsManager` is its one
class. Each of its operations reads the whole list of carts from the file,
changes the list in memory and writes the whole list back:

- `addCart` gives a new cart the next id and an empty product list, and appends it;
- `getCarts` returns the stored list, or an empty list when the file is missing, empty or unreadable;
- `getCartById` returns the first cart with the id, or a `{error: "Cart Not Found!", cartId}` record;
- `addProductToCart` adds one unit of a product to the cart with the given id.

The model has three modules:

- `JsNumber` (`js_number.dfy`) covers the JavaScript number behaviour the store depends on. That is integer and NaN values, strict equality `===`, and `parseInt` as ECMA-262 section 19.2.5 defines it when no radix is given. Callers pass ids either as numbers or as text (`Arg`). This keeps two comparisons apart that the source treats differently. `getCartById` compares with `===` and no coercion, so a text id never matches. `addProductToCart` runs both ids through `parseInt` first.
- `Carts` (`carts_manager.dfy`) holds the data (`LineItem`, `Cart`, `FileState`, `CartLookup`), the functions that specify each operation, the lemmas about them, and the class `CartsManager`. The class has one field, `stored: FileState`, which stands for the file's contents. Its methods say exactly what `stored` becomes. `GetId`, the map callback `UpdateCart` and the map `UpdateCarts` are loops proved against the specification functions `MaxId`, `UpdatedCart` and `AddProduct`.
- `CartsClient` (`carts_client.dfy`) is code that calls the store and relies only on its contracts. One method makes n carts in a row. The example session creates carts, adds products with numeric and text ids, adds to an unknown cart, and looks carts up.

The file itself is not modelled as text. `FileState` lists what reading it can find:

- `Missing`: there is no file (`ENOENT`);
- `Unreadable`: some other read error;
- `Empty`: the file is empty;
- `Corrupt`: the text does not parse;
- `Ok(carts)`: a list of carts.

The number `NaN` stands both for the NaN that `parseInt` returns and for the `null` that `JSON.stringify` writes in its place. Neither one is strictly equal to any number, so reading back the written list still gives the same list.

## Model

| member | source | states |
|---|---|---|
| `Carts.CartsManager.constructor` | src/helpers/cartsManager.js:4-7 | a store starts with whatever the file holds at that moment |
| `Carts.CartsManager.GetCarts` | src/helpers/cartsManager.js:28-49 | the stored list when the file holds one; the empty list when the file is missing, unreadable, empty or unparsable |
| `Carts.CartsManager.UpdateFileCarts` | src/helpers/cartsManager.js:110-119 | the file afterwards holds exactly the given list, and reading it back gives that list (write then read is the identity); the list is returned |
| `Carts.MaxId` | src/helpers/cartsManager.js:100-108 | the running maximum starting at 0 is non-negative, at least every id, and either 0 or one of the ids |
| `Carts.CartsManager.GetId` | src/helpers/cartsManager.js:100-108 | the loop over the carts returns MaxId + 1: at least 1, above every existing id, and exactly 1 for no carts |
| `Carts.NextIdIsLeastFresh` | src/helpers/cartsManager.js:100-108 | the new id is the least positive integer above every id in use |
| `Carts.MaxIdOfSerial` | src/helpers/cartsManager.js:100-108 | once carts 1..n exist, the largest id is n, so the next cart gets n + 1 |
| `Carts.CartsManager.AddCart` | src/helpers/cartsManager.js:9-26 | returns `{id: MaxId + 1, products: []}`, whose id is above every earlier id; the file afterwards holds the old list, unchanged and in order, followed by that cart; looking up its id then finds exactly that cart |
| `CartsClient.AddCartsInSequence` | src/helpers/cartsManager.js:9-21 | n creations on a store with no carts return and store the carts with ids 1, 2, ..., n in order: strictly increasing, no duplicates |
| `Carts.MatchingCarts` | src/helpers/cartsManager.js:54 | the filtered list holds only carts with the id (compared strictly); it is empty exactly when no cart has the id; otherwise its head is the first such cart |
| `Carts.CartsManager.GetCartById` | src/helpers/cartsManager.js:52-67 | not found exactly when no stored cart has the id; then returns `{error: "Cart Not Found!", cartId: id}` with the id as given; otherwise returns the first stored cart with the id; it is total (never fails) |
| `Carts.AppendedIsFirst` | src/helpers/cartsManager.js:13-19 | a cart appended with an id above all others is the first, and only first, match for its own id |
| `Carts.FirstWithProduct` | src/helpers/cartsManager.js:77-83 | the scan's stopping index: the first item holding the product, or the end when no item does |
| `Carts.WithProduct` | src/helpers/cartsManager.js:76-88 | adding a product gives the cart exactly one unit more in total, and at most one item more (and no item fewer) |
| `Carts.WithProductIncrements` | src/helpers/cartsManager.js:77-84 | when item k is the first holding the product, only item k changes, and only its quantity, which goes up by 1; the length stays the same |
| `Carts.WithProductAppends` | src/helpers/cartsManager.js:86-88 | when no item holds the product (an empty list included), `{product: pid, quantity: 1}` is appended at the end |
| `Carts.NaNProductAppends` | src/helpers/cartsManager.js:86-88 | a product id that `parseInt` turns into NaN matches no item, so every such call appends a new item |
| `Carts.SameProductTwice` | src/helpers/cartsManager.js:76-88 | the same product added twice to an empty cart gives one item with quantity 2, not two items |
| `Carts.TwoProducts` | src/helpers/cartsManager.js:76-88 | two different products added to an empty cart give two items with quantity 1, in the order added |
| `Carts.WithProductKeepsUnique` | src/helpers/cartsManager.js:76-88 | if no two items of a cart hold strictly equal (`===`) products before an addition, none do after it; NaN items are never merged (see NaNProductAppends) |
| `Carts.WithProductKeepsDistinct` | src/helpers/cartsManager.js:76-88 | when every product id is an integer and occurs in one item only, adding an integer product id keeps both facts |
| `Carts.UpdateCart` | src/helpers/cartsManager.js:73-89 | the callback, with its guard, its index loop, its `hasProduct` flag and its `break`, computes UpdatedCart: the cart with the product added when its id equals the parsed `cid`, and the cart unchanged otherwise |
| `Carts.UpdateCarts` | src/helpers/cartsManager.js:72-90 | the map over all carts computes AddProduct |
| `Carts.AddProductPointwise` | src/helpers/cartsManager.js:72-90 | the collection keeps its length; cart j becomes UpdatedCart of cart j, so every cart with the id changes (duplicates too) and every other cart passes through unchanged |
| `Carts.AddProductUnknownCart` | src/helpers/cartsManager.js:72-93 | an id that matches no cart gives back the same collection: nothing changes and no cart is created |
| `Carts.WithProductKeepsPositive` | src/helpers/cartsManager.js:76-88 | if every item of a cart holds at least one unit before an addition, every item does after it |
| `Carts.AddProductKeepsPositive` | src/helpers/cartsManager.js:72-90 | if every item of every cart holds at least one unit before, every one does after |
| `Carts.AddProductKeepsUnique` | src/helpers/cartsManager.js:72-90 | if no cart holds two strictly equal (`===`) products before, none does after; NaN items are never merged |
| `Carts.CartsManager.AddProductToCart` | src/helpers/cartsManager.js:69-98 | returns AddProduct of the old list, with both ids normalised by `parseInt`, and stores exactly that list |
| `JsNumber.StrictEquals` | src/helpers/cartsManager.js:54 | `===` on numbers is plain equality, except that NaN equals nothing, itself included |
| `JsNumber.ParseText` | src/helpers/cartsManager.js:76 | `parseInt` on text reads a number only from text that holds a digit, and a negative number only from text that holds a minus sign |
| `JsNumber.ParseInt` | src/helpers/cartsManager.js:78 | `parseInt` of a number (an integer or NaN) gives that number back, so normalising a numeric id changes nothing; text goes through ParseText |
| `JsNumber.TrimStart` | src/helpers/cartsManager.js:76 | `parseInt` first drops leading white space: the result is a suffix, everything dropped is white space, and the result does not start with white space |
| `JsNumber.DigitRun` | src/helpers/cartsManager.js:76 | `parseInt` reads the longest run of digits and stops at the first non-digit |
| `JsNumber.NumberTextParses` | src/helpers/cartsManager.js:76 | reading the text of a number gives the number: every integer back from its decimal text, and NaN from "NaN" |
| `JsNumber.DecimalTextParses` | src/helpers/cartsManager.js:78 | the decimal text of any non-negative integer, as a text id, parses to that integer |
| `JsNumber.ParseTextOfSignedPrefix` | src/helpers/cartsManager.js:78 | leading white space and a sign are read, and trailing non-digits are ignored: " -7px" parses to -7 |
| `JsNumber.ParseTextOfHex` | src/helpers/cartsManager.js:78 | a `0x` prefix switches to radix 16: "0x1A" parses to 26 |
| `JsNumber.ParseTextNaN` | src/helpers/cartsManager.js:78 | `parseInt` gives NaN exactly when, after the white space and an optional sign, no decimal digit follows, or a `0x`/`0X` prefix has no hexadecimal digit after it |
| `JsNumber.ParseTextWithoutDigits` | src/helpers/cartsManager.js:78 | examples: "abc" and "" give NaN |
| `JsNumber.ParseTextOfBareHexPrefix` | src/helpers/cartsManager.js:78 | example: "0xg" gives NaN, since the `0x` prefix is followed by no hexadecimal digit |
| `CartsClient.AddProductsToFirstCart` | src/helpers/cartsManager.js:69-98 | on cart 1: product 42, then 42 again given as text, then product 7, then product 7 for unknown cart 99, gives `[{42, 2}, {7, 1}]` |

## Left out

- Reading and writing the file (`fs.promises.readFile` and `writeFile`) and the JSON text format (`JSON.parse` and `JSON.stringify`). These are library calls. The file is modelled as the `FileState` value described above.
- Text that parses to something other than a list of carts. Examples are `{}`, `null` or an array of other values. `{}` and `null` make the spread throw, so they are covered by `Corrupt`. A JSON string would be spread into its characters, and an array of other values would be returned as is; the model has no form for either.
- Carts whose ids are not integers. Every id in the model is an integer, as `#getId` assigns them.
- Write failures. `#updateFileCarts` catches a failed write and only logs it, so `addCart` and `addProductToCart` never see it. Every write succeeds in the model. The rethrow wrappers around `addCart` and `addProductToCart` are reached only when the file's list holds elements that are not carts (`[null]` makes `#getId` read `null.id`; the cart being added to has no `products`, so `cart.products.length` throws), for which the model has no form (see above); they are not modelled.
- The logging and the `err.code === "ENOENT"` test in `getCarts`. Both branches return `[]`, and only the value is modelled.
- `async`/`await`, and the lost update when two read-modify-write cycles overlap. This is concurrency. Each operation is one atomic step here.
- In-place updates of the parsed cart objects (`quantity++`, `products.push`). These are modelled as value updates. Every `getCarts` call parses fresh objects, so no other reference to them exists and no aliasing can be seen.
- The unused `this.carts` field and the `path` setting.
- JsNumber.NumberText: writes every integer in plain decimal. JavaScript switches to exponent notation from 1e21 upwards, and integers above 2^53 lose precision. `NumberTextParses` and the number case of `ParseInt` hold only for integers that JavaScript represents exactly.
- JsNumber.DigitsValue: uses the exact value of a long digit string. JavaScript rounds such a value to a double.
- JsNumber.Number: has only integers and NaN, no fractions and no Infinity. So `parseInt(1.5)`, which is 1, and `parseInt(1e-7)`, which reads "1e-7" and is 1, cannot be expressed for an argument passed as a number. Ids reach the store as integers or as text, and text is modelled in full.
- Carts.CartsManager.GetId: `++maxId` on a double stops growing at 2^53, so a store already holding id 2^53 hands out that id again. The model's integers are unbounded, and "above every existing id" holds only while ids stay below 2^53. The same applies to Carts.MaxId and Carts.CartsManager.AddCart.
- Carts.WithProduct: `quantity++` on a double stops growing at 2^53. The model's quantities are unbounded, so "one unit more" holds only below that.
