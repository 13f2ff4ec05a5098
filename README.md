# Shopping-cart state machine

A Dafny model of the cart provider of a storefront client (the RocketShoes
challenge). The provider keeps one piece of state, `cart`: an ordered list of
product lines, each one a product record with a requested `amount`. Three
operations replace that list as a whole:

- `addProduct(productId)` asks the stock service how many units exist. It
  refuses with the out-of-stock notice when the line already holds at least
  that many, or when the stock is zero or less. Otherwise it adds one unit to
  the existing line. For a new id it fetches the product record and appends it
  with amount 1.
- `removeProduct(productId)` drops the lines with that id. For an unknown id
  it shows the removal-failure notice and keeps the cart.
- `updateProductAmount({productId, amount})` ignores a non-positive amount
  without any notice. It refuses an amount above the stock with the
  out-of-stock notice. Otherwise it sets the amount of the lines with that id.

The starting cart is the cart parsed from local storage, or the empty cart
when storage holds none.

Layout:

- `cart_lines.dfy` (module `CartLines`) holds the line datatype and the cart
  invariant `WellFormed` (ids unique, every amount at least 1). It also holds
  the list operations the provider computes with: `find` is `Find` (through
  `IndexOf`), the two `map`s are `Incremented` and `WithAmount`, and the
  `filter` is `Without`. Each is a recursive function. Lemmas give the maps
  line by line. For the filter they show that it distributes over
  concatenation (so it keeps order), what it keeps and how often, and
  where it splits at the first matching line.
- `cart_provider.dfy` (module `CartProvider`) holds the three operations as
  functions from the old cart to a `Step`, which is the new cart plus an
  `Outcome` naming the notice shown (`Ok`, `OutOfStock`, `RemoveError`,
  `NoOp`). It also holds the lemmas that state the cart rules, and the class
  `Cart`, whose field `cart` the methods `AddProduct`, `RemoveProduct` and
  `UpdateProductAmount` replace. Each method is proved equal to its function.
  Each method is also proved to keep `WellFormed`. `IncrementMatching` is the
  `map` callback of addProduct as a loop. It sets the `cartContains` flag.

The stock service's answer (`Stock`) and the product service's record
(`fetched`) are parameters of the operations.

## Model

| member | source | states |
|---|---|---|
| `CartLines.IndexOf` | src/hooks/useCart.tsx:52 | the search behind both `find` calls (lines 52 and 90): the position found is that of the first line with the id, and it equals the length exactly when no line has the id |
| `CartLines.Find` | src/hooks/useCart.tsx:90 | both `find` calls (lines 52 and 90): a line is returned exactly when some line has the id; the line returned has that id and no earlier line does |
| `CartLines.Incremented` | src/hooks/useCart.tsx:64-73 | the addProduct map keeps the number of lines; its line-by-line effect is stated by `IncrementedAt` |
| `CartLines.WithAmount` | src/hooks/useCart.tsx:114-122 | the updateProductAmount map keeps the number of lines; its line-by-line effect is stated by `WithAmountAt` and `WithAmountAbsent` |
| `CartLines.Without` | src/hooks/useCart.tsx:92 | the removeProduct filter never lengthens the cart; what it keeps, in which order and how often is stated by `WithoutConcat`, `WithoutMembers`, `WithoutCount` and `WithoutSplit` |
| `CartLines.IncrementedAt` | src/hooks/useCart.tsx:64-73 | the addProduct map keeps every line's id and details; a line gains exactly one unit iff its id is the requested one, and other lines keep their amount |
| `CartLines.WithAmountAt` | src/hooks/useCart.tsx:114-122 | the updateProductAmount map keeps every line's id and details; a line's amount becomes the requested amount iff its id matches, and other lines keep theirs |
| `CartLines.WithAmountAbsent` | src/hooks/useCart.tsx:114-122 | mapping over a cart that has no line with the id returns the same cart |
| `CartLines.WithoutMembers` | src/hooks/useCart.tsx:92 | the filter keeps exactly the lines whose id differs from the removed one, and no others |
| `CartLines.WithoutConcat` | src/hooks/useCart.tsx:92 | filtering a cart split in two gives the filtered first part followed by the filtered second part, so the surviving lines keep their original order |
| `CartLines.WithoutCount` | src/hooks/useCart.tsx:92 | every occurrence of a line with the removed id is dropped; every other line occurs as often as in the original |
| `CartLines.WithoutSplit` | src/hooks/useCart.tsx:90-92 | for any cart holding the id: the lines before the first match are kept in place, that line is dropped, and the rest is filtered |
| `CartLines.WithoutUnique` | src/hooks/useCart.tsx:90-93 | in a cart with unique ids, filtering out a present id deletes exactly the line at its position and keeps the rest in order |
| `CartProvider.AddRejects` | src/hooks/useCart.tsx:52-62 | addProduct reports out-of-stock iff the id's line already holds at least the stock or the stock is at most 0 (present or not); the cart is then unchanged; otherwise it reports Ok |
| `CartProvider.AddIncrementsPresent` | src/hooks/useCart.tsx:63-74 | on a present id below the stock: same length, that line's amount becomes old + 1 and stays within the stock, lines with other ids are unchanged; with unique ids every other position is unchanged |
| `CartProvider.AddAppendsAbsent` | src/hooks/useCart.tsx:75-81 | on an absent id with positive stock: exactly one line is appended after the unchanged earlier lines; it is the fetched record with amount 1 |
| `CartProvider.Add` | src/hooks/useCart.tsx:49-86 | addProduct reports only Ok or out-of-stock; a rejection keeps the cart; a success needs positive stock and keeps the length for a present id or adds one line for a new id; the full rules are `AddRejects`, `AddIncrementsPresent` and `AddAppendsAbsent` |
| `CartProvider.Remove` | src/hooks/useCart.tsx:88-100 | removeProduct reports the removal error exactly when no line has the id, and the cart is then unchanged; the cart never grows; the full rules are `RemoveOutcome` and `RemoveDeletesLine` |
| `CartProvider.Update` | src/hooks/useCart.tsx:102-128 | updateProductAmount reports NoOp exactly for a non-positive amount; Ok only for an amount in 1..stock; any other outcome keeps the cart; the length never changes; the full rules are `UpdateRejects`, `UpdateSetsAmount` and `UpdateAbsentUnchanged` |
| `CartProvider.RemoveOutcome` | src/hooks/useCart.tsx:88-100 | an absent id gives the unchanged cart and the removal error; a present id gives Ok and no line with that id; the lines before its first occurrence stay in place and the rest is filtered in order; every other line occurs as often as before |
| `CartProvider.RemoveDeletesLine` | src/hooks/useCart.tsx:90-93 | with unique ids, removing a present id yields the original list minus its one line, in order, so the length drops by one |
| `CartProvider.UpdateRejects` | src/hooks/useCart.tsx:107-113 | an amount at most 0 leaves the cart unchanged with no notice; an amount above the stock leaves it unchanged with out-of-stock; an amount in 1..stock reports Ok |
| `CartProvider.UpdateSetsAmount` | src/hooks/useCart.tsx:113-123 | for an amount in 1..stock: same length, every line with the id gets exactly that amount (so within the stock), every other line is unchanged |
| `CartProvider.UpdateAbsentUnchanged` | src/hooks/useCart.tsx:114-123 | updating an id the cart does not hold leaves the cart equal to the original |
| `CartProvider.AddPreservesWellFormed` | src/hooks/useCart.tsx:63-81 | addProduct keeps ids unique and amounts at least 1, provided the fetched record carries the requested id |
| `CartProvider.RemovePreservesWellFormed` | src/hooks/useCart.tsx:90-93 | removeProduct keeps ids unique and amounts at least 1 |
| `CartProvider.UpdatePreservesWellFormed` | src/hooks/useCart.tsx:107-123 | updateProductAmount keeps ids unique and amounts at least 1 |
| `CartProvider.IncrementMatching` | src/hooks/useCart.tsx:63-73 | the map loop produces the incremented cart, and its `cartContains` flag is raised exactly when some line has the id |
| `CartProvider.Cart.constructor` | src/hooks/useCart.tsx:25-29 | the initial cart is the stored cart when there is one, and otherwise the empty cart, which is well formed |
| `CartProvider.Cart.AddProduct` | src/hooks/useCart.tsx:49-86 | the new cart and outcome are those of `Add` on the old cart; a rejection leaves the cart unchanged; the invariant is kept |
| `CartProvider.Cart.RemoveProduct` | src/hooks/useCart.tsx:88-100 | the new cart and outcome are those of `Remove` on the old cart; a rejection leaves the cart unchanged; the invariant is kept |
| `CartProvider.Cart.UpdateProductAmount` | src/hooks/useCart.tsx:102-128 | the new cart and outcome are those of `Update` on the old cart; a rejection or no-op leaves the cart unchanged; the invariant is kept |

## Left out

- React wiring is not modelled: the context, provider, `useRef`, `useEffect` and JSX (src/hooks/useCart.tsx:22, 31-43, 130-143). It is framework plumbing.
- Local storage and JSON are not modelled. The constructor takes the already parsed stored cart (`None` when storage holds nothing or an empty string). The write-back after each change depends on JavaScript reference inequality between renders, which has no counterpart over values.
- The stock and product requests (src/hooks/useCart.tsx:51, 76, 110) become the parameters `stock` and `fetched`. `fetched` is only used on the append path. Network failures and the `catch` branches that show the generic add, remove and update failure notices are not modelled.
- Notices are not output. Each operation returns an `Outcome` naming the notice it would show.
- Overlapping asynchronous calls are not modelled. Each one works on the cart it captured, so a later call can overwrite an earlier one (a lost update). The model runs one operation at a time. `AddProduct` does keep the captured cart (`snapshot`) when it appends.
- Product metadata other than `id` and `amount` is modelled as `Details` and is carried unchanged. The product types module is not part of this model.
- Amounts and stock are JavaScript numbers in the source. Here they are unbounded integers, so fractional amounts, NaN and floating-point rounding are not modelled.
- `CartProvider.AddPreservesWellFormed`: needs the fetched record's id to equal the requested id. The source never checks this; it trusts the product service.
- The source does not state whether removing a present id leaves one line fewer. Here that fact (`RemoveDeletesLine`) is proved only for carts with unique ids. The code's `filter` drops every line with the id, and `RemoveOutcome` states that for any cart.
- Updating an absent id: the code stores a fresh list equal to the old one and shows no notice, so the model reports `Ok` with an unchanged cart, not a separate no-op outcome.
