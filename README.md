# Pump storefront: cart, checkout, session, search and catalogue

This project models the client-side core of a small web shop that sells pumps.
It has five parts:

- **Cart** (`cart.dfy`). The shopping cart is an ordered list of lines keyed by the product's integer
  `index`. It has four operations: add, remove, update quantity and clear. Two `reduce` folds give
  its total and its item count. The list is kept in `localStorage` under `"cart"`: loaded once on
  mount and written back after every change. The provider is the class `CartStore`.
- **Checkout** (`checkout.dfy`). The page holds a twelve-field form and a validator. The validator
  requires every field to be non-blank, and the email to match `/\S+@\S+\.\S+/`. On submit the
  page builds an order from the cart (8% tax), appends it to the `"orders"` log in
  `localStorage`, and clears the cart. The page is the class `CheckoutPage`.
- **Session** (`session.dfy`). The signed-in user is cached under `"token"` and `"user"`. On load,
  the cache is checked for consistency: a broken cache is cleared, and a good one restores the
  user. Login and register build a normalised user record, and logout clears the cache. The
  provider is the class `UserStore`. The authentication endpoint is represented by the reply it
  gave (`AuthReply`).
- **Search** (`search.dfy`). This is a case-insensitive substring filter of the catalogue, taking
  the `query` URL parameter. It also covers the "Found N products" header and the add-to-cart
  button, which needs a signed-in user.
- **Catalogue** (`catalogue.dfy`). Eighteen products, each computed from its position.

Shared pieces:

- `browser.dfy` models `localStorage` as a class over a `map<string, string>`.
- `browser.dfy` also models JSON as a `Codec`: an encode function and a partial decode function.
  Round-trip facts take the ghost predicate `RoundTrips` as a precondition.
- `browser.dfy` models JavaScript truthiness of an optional string as `Truthy`.
- `text.dfy` holds the string helpers the pages rely on: `trim` with JavaScript's whitespace set,
  ASCII lower and upper case, `includes`, and the decimal rendering of a natural number.

How the source's behaviour is represented:

- Money is in integer cents. A catalogue price of `100 + 50·i` dollars is `(100 + 50·i)·100`
  cents. An order's subtotal, tax and total are integers in hundredths of a cent, so 8% of
  any subtotal is exact.
- A React state update is modelled as the class field taking the new value. An effect is
  modelled by its final effect on storage. For example, after every cart change the `"cart"` key
  holds the encoding of the new list.
- The cart provider modelled is `src/context/CartContext.tsx`. The checkout page and the product
  details page under `frontend/` reach a cart through `useCart`, with the same interface
  (`cartItems`, `addToCart`, `clearCart`, `cartTotal`). This model gives them the modelled cart.
- Three behaviours of the code are modelled as written:
  - Registration does not check for a token, and stores a missing one as the string "undefined".
  - A stored user that is the literal "undefined" is not restored, but it is kept beside its
    token rather than cleared.
  - An order log that does not parse makes the submit fail. It does not start a new log.
- The checkout form has no `noValidate`, and its email input has type "email". So the browser
  checks that input before the submit handler runs. The model includes this check: the valid
  e-mail address grammar of the HTML Living Standard (section 4.10.5.1.5). That grammar and the
  page's own pattern disagree in both directions.

## Model

| member | source | states |
|---|---|---|
| Cart.TotalsAreSums | src/context/CartContext.tsx:83-87 | the `reduce` folds for `cartTotal` and `cartCount` equal Σ price × quantity and Σ quantity over the lines |
| Cart.MapMatchingAt | src/context/CartContext.tsx:50-55 | in a cart with unique keys, mapping over the lines with a given key changes exactly the one line at that position |
| Cart.AddExisting | src/context/CartContext.tsx:48-55 | adding an item whose index is present raises only that line's quantity by one; the count grows by 1 and the total by that line's price |
| Cart.AddAbsent | src/context/CartContext.tsx:48-57 | adding an item whose index is absent appends one line with quantity 1 and the item's fields; the count grows by 1 and the total by the item's price |
| Cart.AddKeepsWellformed | src/context/CartContext.tsx:48-58 | adding keeps keys unique and every quantity at least 1 |
| Cart.RemoveMembers | src/context/CartContext.tsx:60-64 | the lines kept by `removeFromCart` are exactly the lines with another index |
| Cart.RemoveAt | src/context/CartContext.tsx:60-64 | in a cart with unique keys, removing a present key deletes exactly that one line and keeps the order of the rest |
| Cart.RemoveAbsent | src/context/CartContext.tsx:60-64 | removing an absent key leaves the cart unchanged |
| Cart.RemoveKeepsWellformed | src/context/CartContext.tsx:60-64 | removal keeps keys unique and quantities at least 1 |
| Cart.UpdatePositive | src/context/CartContext.tsx:66-76 | a positive quantity replaces only that line's quantity; count and total change by the difference |
| Cart.UpdateAbsent | src/context/CartContext.tsx:66-76 | updating an absent key changes nothing, for any quantity |
| Cart.UpdateKeepsWellformed | src/context/CartContext.tsx:66-76 | updating keeps keys unique and quantities at least 1, because a non-positive value removes the line |
| Cart.FromEmptyWellformed | src/context/CartContext.tsx:48-76 | any sequence of add, remove and update applied to an empty cart leaves keys unique and quantities positive |
| Cart.RepeatedAdd | src/context/CartContext.tsx:48-57 | adding the same new item n times gives one line with quantity n, appended at the end |
| Cart.FixedIndexCollapses | frontend/src/pages/ProductDetailsAPI.tsx:136-142 | the details page always adds with index 0, so two different products added from it merge into one line with quantity 2 that keeps the first product's fields |
| Cart.LoadFallsBack | src/context/CartContext.tsx:31-41 | a saved cart that is missing, empty or unparsable loads as the empty list |
| Cart.SaveThenLoad | src/context/CartContext.tsx:31-46 | what the save effect writes, the load effect reads back unchanged |
| Cart.CartStore.Mount | src/context/CartContext.tsx:31-46 | mounting loads the saved list (or the empty one), then writes it back under "cart" |
| Cart.CartStore.AddToCart | src/context/CartContext.tsx:48-58 | the items become the add transform of the old items, the invariant is kept, and "cart" holds the new list |
| Cart.CartStore.RemoveFromCart | src/context/CartContext.tsx:60-64 | the items become the filtered list, the invariant is kept, and "cart" holds the new list |
| Cart.CartStore.UpdateQuantity | src/context/CartContext.tsx:66-76 | a quantity ≤ 0 acts exactly as removal; otherwise the matching line takes the quantity; the invariant is kept; "cart" holds the new list |
| Cart.CartStore.ClearCart | src/context/CartContext.tsx:78-81 | afterwards the list is empty, total and count are 0, and "cart" holds the empty list |
| Catalogue.CatalogueShape | src/data/products.ts:1-4 | 18 entries; entry i has index i, so indices are distinct; prices are (100 + 50·i) dollars, strictly increasing from 100 to 950 |
| Catalogue.NameAndImage | src/data/products.ts:3-5 | entry i's name starts with "Pump Model " and the digits after it read back as the model number i+1; the image path starts with "/src/Images/pump", ends with ".jpg", and carries exactly the same digits in between |
| Catalogue.NamesDistinct | src/data/products.ts:3 | no two entries share a name |
| Catalogue.DescriptionContainsName | src/data/products.ts:6-8 | every description contains its product's name |
| Text.DigitsRoundTrip | src/data/products.ts:3 | the decimal rendering of a model number parses back to that number |
| Text.DigitsInjective | src/data/products.ts:3 | different numbers render differently |
| Session.BuildUserFields | frontend/src/context/UserContext.tsx:91-98 | the built user copies id and email, defaults a falsy name or role to "User", and is an admin exactly when the raw role is "Admin" or the raw flag is true, which is also exactly when its own stored flag is true |
| Session.IsAdmin | frontend/src/context/UserContext.tsx:150 | with no user there is no admin |
| Session.LoadCases | frontend/src/context/UserContext.tsx:50-73 | a user is restored exactly when both keys are present, the user is not "undefined" and it parses; the keys are cleared exactly when no user is restored, except for a token stored beside the literal "undefined" |
| Session.LoginSurvivesReload | frontend/src/context/UserContext.tsx:100-105 | a session written by a successful login is restored by the next load, and the keys are kept |
| Session.TokenlessRegisterSurvivesReload | frontend/src/context/UserContext.tsx:135-137 | a registration without a token stores "undefined" as the token, and the next load still restores the user |
| Session.UserStore.Mount | frontend/src/context/UserContext.tsx:50-73 | the user and storage after the load effect are those the four-case decision gives, and loading ends false |
| Session.UserStore.Login | frontend/src/context/UserContext.tsx:75-115 | a failed request or a reply without user or token fails and changes nothing; otherwise the built user is signed in and token and user are stored |
| Session.UserStore.Register | frontend/src/context/UserContext.tsx:117-142 | a failed request or a missing payload fails and changes nothing; otherwise the built user is signed in, and the token (or "undefined") and the user are stored |
| Session.UserStore.Logout | frontend/src/context/UserContext.tsx:144-150 | from any state, the user becomes null, the user is not an admin, and both keys are removed |
| Search.FilterExact | src/pages/Search.tsx:15-19 | the results are exactly the products whose lowercased name or description contains the lowercased query |
| Search.FilterSubsequence | src/pages/Search.tsx:15 | the results keep the catalogue's order |
| Search.EmptyQueryKeepsAll | src/pages/Search.tsx:14-19 | a missing or empty query keeps every product |
| Search.SameLowercaseSameResult | src/pages/Search.tsx:17-18 | queries that lowercase alike give the same results |
| Search.CaseInsensitive | src/pages/Search.tsx:17-18 | upper- or lower-casing the query does not change the results |
| Search.NameFindsProduct | src/pages/Search.tsx:15-19 | searching for a product's name always finds that product |
| Search.ResultHeader | src/pages/Search.tsx:51-55 | "No results found" exactly when the count is 0; otherwise "Found N product", with the plural exactly when N ≠ 1 |
| Search.HandleAddToCart | src/pages/Search.tsx:21-34 | with no signed-in user nothing changes; otherwise the product's index, name, price and image are added to the cart |
| Text.TrimEmptyIffAllSpace | frontend/src/pages/Checkout.tsx:85 | `trim()` gives the empty string exactly when every character is whitespace |
| Checkout.FormData.With | frontend/src/pages/Checkout.tsx:67-72 | the changed field takes the new value and every other field is unchanged |
| Checkout.EmailShapedIsRegexTest | frontend/src/pages/Checkout.tsx:89 | the linear email check agrees, in both directions, with "some substring matches \S+@\S+\.\S+" |
| Checkout.PatternPassesSpaced | frontend/src/pages/Checkout.tsx:89 | the page's pattern accepts "a b@c.d", an address with a space in its local part |
| Checkout.BrowserBlocksSpaced | frontend/src/pages/Checkout.tsx:218 | the browser's check of the email input rejects "a b@c.d", so it blocks a submit that the page's validator would accept |
| Checkout.BrowserPassesPatternRejects | frontend/src/pages/Checkout.tsx:218 | the browser accepts "a@b", whose domain has no dot, and the page's pattern rejects it |
| Checkout.BrowserDottedIsShaped | frontend/src/pages/Checkout.tsx:218 | every address the browser accepts whose domain has at least two labels also passes the page's pattern |
| Checkout.ErrorsUpToFields | frontend/src/pages/Checkout.tsx:82-102 | after the first n checks, a field has an error exactly when it was checked and has a problem, and the error is that problem |
| Checkout.FormErrorsFields | frontend/src/pages/Checkout.tsx:82-102 | a field has an error exactly when it has a problem, and the message is that problem |
| Checkout.RequiredExactlyForBlank | frontend/src/pages/Checkout.tsx:85-102 | a field gets its "required" message exactly when it is blank after trimming; a non-email field has an error exactly then |
| Checkout.EmailMessage | frontend/src/pages/Checkout.tsx:88-90 | a blank email gets "required"; a non-blank email that does not match gets "invalid"; a matching one gets nothing |
| Checkout.ValidIff | frontend/src/pages/Checkout.tsx:82-105 | the form is valid exactly when every field is non-blank and the email matches |
| Checkout.CheckField | frontend/src/pages/Checkout.tsx:85-102 | one check of the sequence adds that field's problem, if any, to the errors found so far |
| Checkout.CollectErrors | frontend/src/pages/Checkout.tsx:82-102 | the twelve checks, in source order, compute exactly the per-field error map |
| Checkout.Shown | frontend/src/pages/Checkout.tsx:104 | the shown errors have the same fields as the error map, each with a non-empty message |
| Checkout.OrderAmounts | frontend/src/pages/Checkout.tsx:41-44 | the order's items are the cart, and its subtotal is Σ price × quantity; tax is exactly 8% of the subtotal and total exactly 108% (all three in hundredths of a cent); status is "confirmed" |
| Checkout.OrderKeepsOnlyAddress | frontend/src/pages/Checkout.tsx:125-132 | the shipping address copies the six address fields; forms that differ only in email, phone or card give the same order |
| Checkout.AppendedLogReadsBack | frontend/src/pages/Checkout.tsx:136-139 | under a round-tripping codec, the written log reads back as the earlier orders unchanged, followed by exactly the new one |
| Checkout.CheckoutPage.constructor | frontend/src/pages/Checkout.tsx:24-38 | the form starts with all twelve fields empty and with no errors |
| Checkout.CheckoutPage.HandleChange | frontend/src/pages/Checkout.tsx:67-80 | only the changed field's value changes; only its error is blanked, and only if it was non-empty |
| Checkout.CheckoutPage.ValidateForm | frontend/src/pages/Checkout.tsx:82-106 | the shown errors are the error map's messages, and the result is true exactly when that map is empty |
| Checkout.CheckoutPage.HandleSubmit | frontend/src/pages/Checkout.tsx:46-149 | an empty cart reaches no handler; an email the browser rejects blocks the submit and changes nothing; invalid input records errors and changes nothing else; an order log that does not parse gives exactly the unreadable-log outcome, with nothing written; otherwise the order is built from the cart, appended to the log, and the cart is cleared |

## Left out

- Floating point is left out. Prices are exact integer cents, and an order's subtotal, tax and total are exact integers in hundredths of a cent, so no rounding from binary floating point is modelled.
- Network calls are left out. `api.post` of login and register becomes the `AuthReply` parameter; the request itself and its error text are not modelled.
- Timers are left out, including the 1.5-second simulated delay in `handleSubmit`.
- Navigation is left out: `navigate`, `alert`, and the page markup apart from the email input's type.
- Console logging is left out.
- The clock is left out. `Date.now()` and `toISOString()` become the `orderId` and `date` parameters of `HandleSubmit`.
- The `isLoading` flag is left out, along with what happens when a submit overlaps another. Renders are assumed to complete between events.
- `productId` of a cart line is left out, because no modelled caller sets it.
- JSON is modelled as `Codec` values, and decode yields a value of the expected shape or nothing. "Nothing" covers text that does not parse, and also well-formed JSON of another shape. The source treats the two differently, so the cases below are not modelled faithfully:
- Cart.LoadCart: a saved cart that parses to a non-array (for example `null`, `{}` or `5`) loads as the empty list here. The source stores that value as the cart, and the next total or count computation throws. A saved array whose entries lack fields is not modelled either; the source does not validate it.
- Checkout.ReadOrders: an order log that parses to an array of other values (for example `[1]`) reads as unreadable here, and `HandleSubmit` writes nothing. The source appends the order to that array and writes it back.
- Session.DecideLoad: a stored user that parses to `null` or to a non-object is not modelled.
- Session.UserStore.Register: a reply whose token is JSON `null` is not modelled. The source stores it with `setItem`, which writes the string "null". The model's token is an `Option<string>`, so that reply counts as a missing token and is stored as "undefined". Both strings are truthy when the session is next loaded, so only the stored text differs. Login is not affected, because it rejects a `null` token as it rejects a missing one.
- Browser value sanitisation is not modelled. Browsers strip leading and trailing white space and line breaks from an email input's value before checking it; the model checks the stored value as it is. Internationalised domain names, which some browsers convert to ASCII before checking, are not modelled either.
- Letter case is ASCII only. `toLowerCase` on non-ASCII letters is not modelled.
- Validation messages are a `Message` datatype, and `Wording` gives each one its source text. The `errors` map holds the wording.
- Session.IsAdmin: its own contract states only that there is no admin without a user. The full condition is stated for built records by `Session.BuildUserFields`.
- frontend/src/context/CartContext.tsx is not part of this model. The frontend pages are given the modelled cart instead.
