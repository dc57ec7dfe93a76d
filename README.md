# ShopNow storefront: checkout, order routing, product rules

This project models the parts of the ShopNow storefront that make decisions. It models:

- **Checkout page** (`Checkout` module):
  - the field-by-field validator that builds the error map;
  - the card-number formatter that keeps digits, takes at most sixteen and groups them in fours;
  - the order payload built from the cart lines;
  - the submit sequence: create the order, then clear the cart and move on, or alert and stay;
  - the empty-cart guard.
- **Order router** (`OrderRoutes`): the five order endpoints. Each is a chain of middleware (`protect`, optionally `admin`) in front of a controller. Express dispatches to the first route registered for the method whose path matches.
- **Registration page** (`Register`): the two password checks in their order, the call to `register`, the role-based landing page, and the redirect of a visitor who is already signed in.
- **Product page** (`ProductDetail`):
  - the quantity stepper;
  - the add-to-cart loop, which calls `addToCart` once per unit;
  - the related-products filter and take-four;
  - the in-stock gate on the add button;
  - the loading effect.
- **Cart page** (`CartPage`): the minus, plus and remove buttons of each line, the line subtotal, the line count, the link to each product's page, and the empty-cart view.
- **Product schema** (`ProductSchema`): the mongoose schema read as a validator. The `trim` setter runs first. Then come `required`, `min`, `max` and `enum` per path, with at most one violation per path. Defaults are filled in for absent optional paths.
- **Client routes** (`AppRoutes`): the route table and its gates, and the `PublicRoute` decision.

Shared modules:

- `Text` gives JavaScript's meaning to the string operations the pages use:
  - the ECMAScript whitespace set of `trim()` and `\s`;
  - ASCII `[0-9]`;
  - `.length`, counted in UTF-16 code units.
- `Session` maps a role to its landing page.
- `Paths` holds route patterns with literal and `:param` segments.
- `CartLines` holds the cart line as the pages read it, with `_id || id`.

Collaborators whose code is not part of this model appear in one of three ways:

- **Calls in a log.** The page classes keep a log (`seq<Call>`) of the calls they make:
  - the checkout page logs `createOrder`, `clearCart`, `navigate` and `alert`;
  - the registration page logs `register` and `navigate`;
  - the product page logs `addToCart` and `navigate`.
- **Actions.** The cart page has no state of its own. Each of its controls carries the `Action` it triggers: `updateQuantity`, `removeFromCart`, `clearCart` or a navigation.
- **Inputs.** The cart total from `getTotalPrice()`, the results of `getProduct` and `getProducts`, and the outcome of every awaited call are inputs of the handler that uses them.

The checkout validator is modelled in full, although field-level validation reads like a detail of the user interface, because the submit sequence depends on it.

The `protect` middleware is taken to pass exactly the signed-in callers. The `admin` middleware is taken to pass exactly those whose role is `"admin"`.

Intended behaviour the code does not carry out; the model follows the code:

- **Order ownership.** An order is meant to be readable only by its owner or an administrator. The router applies only `protect` to `GET /orders/:id` (server/routes/orderRoutes.js:14), and any ownership check would sit in the order controller, which is not part of this model. `OrderRoutes.GetOneNeedsSignInOnly` states what the router enforces.
- **Order total.** The order total is meant to be computed on the server from the prices recorded in the cart lines. The checkout page sends the cart provider's `getTotalPrice()` as `totalPrice` (src/pages/Checkout.js:100). The model states that the payload carries that value.
- **"Public" pages.** The pages wrapped by `PublicRoute` are named public, but `PublicRoute` sends every visitor who is not signed in to `/login` (src/App.js:29-31).

## Model

| member | source | states |
|---|---|---|
| Text.TrimStart | src/pages/Checkout.js:43 | the result is a suffix of the input, everything dropped is whitespace, and the result does not start with whitespace |
| Text.TrimEnd | src/pages/Checkout.js:43 | the result is a prefix of the input, everything dropped is whitespace, and the result does not end with whitespace |
| Text.TrimEmptyIffBlank | src/pages/Checkout.js:43 | `s.trim()` is empty (falsy) exactly when every character of `s` is whitespace |
| Text.TrimIdempotent | server/models/Product.js:7 | trimming a trimmed string changes nothing |
| Text.RemoveSpaces | src/pages/Checkout.js:59 | `replace(/\s/g, '')` drops a lone whitespace character and keeps any other; with `RemoveSpacesAppend` this fixes the result for every string. The result has no whitespace, is never longer, and is empty exactly for blank input |
| Text.RemoveSpacesAppend | src/pages/Checkout.js:59 | removing whitespace distributes over concatenation |
| Text.Digits | src/pages/Checkout.js:115 | `replace(/[^0-9]/gi, '')` keeps a lone digit and drops any other character; with `DigitsAppend` this fixes the result for every string. The result is all digits, never longer, and unchanged on a digit string |
| Text.DigitsAppend | src/pages/Checkout.js:115 | keeping digits distributes over concatenation |
| Text.DigitsIgnoreSpaces | src/pages/Checkout.js:115 | removing whitespace before keeping digits does not change the result |
| Text.RemoveSpacesKeepsDigits | src/pages/Checkout.js:115 | on digits and whitespace, removing whitespace equals keeping digits |
| Text.Utf16Length | src/pages/Checkout.js:59 | `.length` of one character is 2 above U+FFFF and 1 otherwise; with `Utf16LengthAppend` this fixes it for every string. It lies between the character count and twice it, and equals the character count on text in the Basic Multilingual Plane |
| Text.Utf16LengthAppend | src/pages/Checkout.js:59 | the `.length` of a concatenation is the sum of the lengths |
| Text.AsciiLength | src/pages/Checkout.js:59 | a string of digits and spaces measures its character count |
| Session.LandingPath | src/pages/Register.js:58-63 | the landing page is `/admin` exactly for the role `"admin"`, and `/` otherwise |
| Paths.Bound | server/routes/orderRoutes.js:14 | `req.params.id` is the path segment at the position of the first `:id` in the pattern, and is non-empty; nothing is bound exactly when the pattern has no such parameter |
| CartLines.ProductRef | src/pages/Checkout.js:87 | `item._id \|\| item.id`: the database id when it is non-empty, else the local id |
| Checkout.With | src/pages/Checkout.js:31-34 | the named field takes the new value and every other field is kept |
| Checkout.DotFromIff | src/pages/Checkout.js:47 | the scan for `\.\S` after an `@` succeeds exactly when such a dot exists in the non-space run |
| Checkout.AtFromIff | src/pages/Checkout.js:47 | the scan over '@' positions succeeds exactly when some `\S@\S+\.\S` occurrence starts there or later |
| Checkout.MatchesEmailPatternIff | src/pages/Checkout.js:47 | the scan decides exactly whether `/\S+@\S+\.\S+/` finds a match anywhere in the string |
| Checkout.CollectStep | src/pages/Checkout.js:40-68 | adding one field's verdict to the collected map yields the map collected over one more field |
| Checkout.CollectShippingAll | src/pages/Checkout.js:43-54 | the eight shipping checks in page order collect exactly the failing shipping fields with their messages |
| Checkout.CollectAll | src/pages/Checkout.js:40-68 | the twelve checks in page order collect exactly the failing fields with their messages, whatever the rules |
| Checkout.ErrorMapLookup | src/pages/Checkout.js:43-68 | a field has an entry in the error map exactly when it fails its rule, and the entry is that rule's message |
| Checkout.BlankFieldIsMissing | src/pages/Checkout.js:43-68 | a field holding only whitespace gets its "required" message, for every field |
| Checkout.EmailVerdict | src/pages/Checkout.js:45-49 | e-mail has an entry exactly when it is blank or has no `x@y.z` part; the entry is "required" exactly when blank and "invalid" exactly when not |
| Checkout.CardNumberPasses | src/pages/Checkout.js:57-61 | the card rule passes exactly when the value measures 16 once whitespace is removed |
| Checkout.CardNumberVerdict | src/pages/Checkout.js:57-61 | the card number has no entry in the error map exactly when it measures 16 without whitespace: there is no checksum and no digit check |
| Checkout.EmptyErrorsMeanSubmittable | src/pages/Checkout.js:70-71 | an empty error map means every field passes its rule |
| Checkout.SubmittableFieldPasses | src/pages/Checkout.js:43-68 | on a form where every rule passes, no field gets a verdict |
| Checkout.SubmittableMeansNoErrors | src/pages/Checkout.js:70-71 | a form on which every rule passes leaves the error map empty |
| Checkout.ErrorMapEmptyIff | src/pages/Checkout.js:70-71 | the error map is empty exactly when every field passes its rule |
| Checkout.IsMissing | src/pages/Checkout.js:43 | `!value.trim()` holds exactly for blank values |
| Checkout.CheckPresent | src/pages/Checkout.js:43-44 | a presence-only check adds the field's "required" entry exactly when the field fails, and leaves the map alone otherwise |
| Checkout.CheckEmail | src/pages/Checkout.js:45-49 | the e-mail check adds that field's verdict to the map |
| Checkout.CheckCardNumber | src/pages/Checkout.js:57-61 | the card check adds that field's verdict to the map |
| Checkout.ValidateForm | src/pages/Checkout.js:40-72 | the map built field by field is the error map of the form, and the result is true exactly when every rule passes |
| Checkout.DigitRun | src/pages/Checkout.js:116 | the run starting at `i` stays in range, is all digits, and is followed by a non-digit or the end |
| Checkout.FirstDigitMatch | src/pages/Checkout.js:116 | a match of `/\d{4,16}/` is 4 to 16 digits |
| Checkout.GroupsStep | src/pages/Checkout.js:119-121 | the chunks from `i` on are `substring(i, i + 4)` followed by the chunks from `i + 4` on |
| Checkout.Chunks | src/pages/Checkout.js:118-121 | the loop pushes exactly the groups of four of the match, the last possibly shorter |
| Checkout.FormatCardNumber | src/pages/Checkout.js:114-127 | the method returns the formatted value (`CardFormat`), whose properties the lemmas below state |
| Checkout.DigitRunOfDigits | src/pages/Checkout.js:116 | on a digit string the run from `i` reaches the end |
| Checkout.FirstMatchOfDigits | src/pages/Checkout.js:116-117 | on a digit string the first match is its first sixteen digits when it has four or more, and there is none otherwise |
| Checkout.JoinSpaceAlphabet | src/pages/Checkout.js:123 | digit groups joined by spaces contain only digits and spaces |
| Checkout.JoinSpaceRemoveSpaces | src/pages/Checkout.js:123 | removing the spaces of the joined groups lays the groups end to end |
| Checkout.JoinSpaceLength | src/pages/Checkout.js:123 | joining puts exactly one separator between each two groups |
| Checkout.GroupsShape | src/pages/Checkout.js:119-121 | the groups concatenate back to the match, number `ceil(n/4)`, hold one to four characters each (all but the last exactly four), and are digits when the match is |
| Checkout.CardFormatShape | src/pages/Checkout.js:114-127 | the output is the first sixteen digits in space-joined groups of four when four or more digits were typed, and the bare digits otherwise |
| Checkout.CardFormatDigits | src/pages/Checkout.js:114-127 | the output holds only digits and spaces, is at most 19 long, and without spaces is the first (at most sixteen) digits typed |
| Checkout.CardFormatIdempotent | src/pages/Checkout.js:129-131 | formatting an already formatted card number changes nothing |
| Checkout.FormattedCardAcceptedIff | src/pages/Checkout.js:129-131 | a card number typed through the formatter passes validation exactly when at least sixteen digits were typed |
| Checkout.OrderItems | src/pages/Checkout.js:86-89 | one order item per cart line, in cart order, carrying `_id \|\| id` and the quantity |
| Checkout.OrderIgnoresPayment | src/pages/Checkout.js:85-101 | forms that agree on the shipping fields give the same payload (no card data is sent); `totalPrice` is the cart total; one item per line |
| Checkout.OrderItemsAppend | src/pages/Checkout.js:86-89 | the items of a concatenation of carts are the items of each part in order |
| Checkout.ClearOnlyAfterSuccess | src/pages/Checkout.js:77-110 | the cart is cleared exactly when the form passes and the order is created, and always after `createOrder`; an invalid form makes no call; a failed order alerts |
| Checkout.ClearedError | src/pages/Checkout.js:35-37 | the message of the edited field becomes empty when present, and every other entry is kept |
| Checkout.ViewFor | src/pages/Checkout.js:135-141 | the form is shown exactly when the cart has lines; otherwise only the link back to `/products` |
| Checkout.CheckoutPage.constructor | src/pages/Checkout.js:10-25 | the page starts with an empty form, no errors, not processing, and no calls |
| Checkout.CheckoutPage.HandleChange | src/pages/Checkout.js:29-38 | any field but the card number (which has its own handler) takes the typed value and its message is blanked; nothing else changes |
| Checkout.CheckoutPage.HandleCardNumberChange | src/pages/Checkout.js:129-133 | the card number takes the formatted value (digits and spaces, at most 19 long) and its message is blanked |
| Checkout.CheckoutPage.HandleSubmit | src/pages/Checkout.js:74-111 | the errors become the form's error map; the calls are extended by the submission's calls; processing stays set only after a successful order |
| OrderRoutes.FirstRefusal | server/routes/orderRoutes.js:12-15 | no middleware refuses exactly when all pass; a refusal names the first middleware of the chain that refuses, every earlier one having passed |
| OrderRoutes.RouteDecision | server/routes/orderRoutes.js:12-15 | a matching route runs its controller only when every middleware passes, and otherwise answers with its first refusal |
| OrderRoutes.DispatchFirstMatch | server/routes/orderRoutes.js:12-15 | dispatch answers with the decision of the first route registered for the verb whose pattern matches (no earlier route matches), and finds no route exactly when none matches |
| OrderRoutes.DispatchSound | server/routes/orderRoutes.js:12-15 | a controller is reached only through a matching route whose every middleware passes; a refusal comes from a matching route's first refusing middleware; no route exactly when none matches |
| OrderRoutes.TableGuarded | server/routes/orderRoutes.js:12-15 | every route starts with `protect`, and the admin-only handlers carry `admin` |
| OrderRoutes.ReachedNeedsRole | server/routes/orderRoutes.js:12-15 | a controller runs only for a signed-in caller, and an admin-only one only for an administrator |
| OrderRoutes.AnonymousRefused | server/routes/orderRoutes.js:12-15 | an anonymous caller reaches no controller, and any refusal comes from `protect` |
| OrderRoutes.Chains | server/routes/orderRoutes.js:12 | `[protect]` refuses exactly the anonymous; `[protect, admin]` refuses the anonymous at `protect` and other non-admins at `admin` |
| OrderRoutes.CreateNeedsSignInOnly | server/routes/orderRoutes.js:12 | `POST /` creates an order for every signed-in caller and refuses the others at `protect` |
| OrderRoutes.ListAllNeedsAdmin | server/routes/orderRoutes.js:12 | `GET /` checks authentication first, then admin, and lists all orders only for an administrator |
| OrderRoutes.MyOrdersIsNotAnId | server/routes/orderRoutes.js:13-14 | `GET /myorders` reaches the caller's own list, never the by-id controller |
| OrderRoutes.GetOneNeedsSignInOnly | server/routes/orderRoutes.js:14 | `GET /:id` reaches the controller with that id for any signed-in caller |
| OrderRoutes.DeliverNeedsAdmin | server/routes/orderRoutes.js:15 | `PUT /:id/deliver` refuses the anonymous at `protect` and other non-admins at `admin`, and reaches the controller with the id for an administrator |
| Register.PasswordProblem | src/pages/Register.js:42-50 | "Passwords do not match" exactly on a mismatch; "at least 6 characters" exactly when they match and the password is shorter than 6 UTF-16 units; no problem exactly otherwise |
| Register.MismatchReportedFirst | src/pages/Register.js:42-50 | a mismatch is reported even when the password is also too short |
| Register.SixIsEnough | src/pages/Register.js:47-50 | for characters in the Basic Multilingual Plane, matching passwords pass exactly from six characters on |
| Register.LandingAfter | src/pages/Register.js:58-63 | after registering, an administrator goes to `/admin` and anyone else, or a missing user, to `/` |
| Register.RegisterOnlyWhenChecksPass | src/pages/Register.js:42-67 | `register` is called exactly when both checks pass, with the password and not the confirmation; a navigation happens exactly after a successful registration |
| Register.RegisterPage.constructor | src/pages/Register.js:9-16 | the page starts with an empty form, no error, not loading, and no calls |
| Register.RegisterPage.HandleChange | src/pages/Register.js:30-36 | the field takes the typed value and the error is cleared |
| Register.RegisterPage.HandleSubmit | src/pages/Register.js:38-68 | a failing check sets its message and leaves loading alone; otherwise loading is set, `register` is called, and success navigates while failure shows the message and resets loading |
| Register.RedirectSignedIn | src/pages/Register.js:20-28 | a signed-in visitor is sent to the landing page of their role, and anyone else stays |
| ProductDetail.PrefixOfSubsequence | src/pages/ProductDetail.js:35 | taking a prefix of a subsequence keeps it a subsequence |
| ProductDetail.OthersSpec | src/pages/ProductDetail.js:34 | the filter keeps, in catalog order, exactly the products with another id |
| ProductDetail.RelatedSpec | src/pages/ProductDetail.js:33-35 | the related products are the first `min(4, n)` of the `n` other products, in catalog order: none has the page's id, and fewer than four only when no other product is left |
| ProductDetail.Repeat | src/pages/ProductDetail.js:68-70 | `n` copies of one call, in a row |
| ProductDetail.ProductDetailPage.constructor | src/pages/ProductDetail.js:12-15 | the quantity starts at 1, with no product, no related products, and the spinner showing |
| ProductDetail.ProductDetailPage.Decrement | src/pages/ProductDetail.js:122 | the quantity becomes `max(1, q - 1)` and never drops below one |
| ProductDetail.ProductDetailPage.Increment | src/pages/ProductDetail.js:130 | the quantity becomes `q + 1` |
| ProductDetail.ProductDetailPage.LoadProduct | src/pages/ProductDetail.js:22-46 | a found product is shown; the related products are replaced only when the catalog request succeeds; failures leave the rest unchanged; the spinner stops; the quantity is kept |
| ProductDetail.ProductDetailPage.View | src/pages/ProductDetail.js:48-142 | a spinner exactly while loading; the not-found view, with its way back to `/products`, when loading ended without a product; the details exactly when a product has loaded, with the add button enabled exactly when it is in stock |
| ProductDetail.ProductDetailPage.HandleAddToCart | src/pages/ProductDetail.js:67-73 | `addToCart(product)` is called exactly `quantity` times, then the page navigates to `/cart` |
| ProductDetail.ProductDetailPage.ClickAddToCart | src/pages/ProductDetail.js:139-142 | a click adds the quantity and moves to the cart for an in-stock product, and does nothing for one out of stock |
| CartPage.Decremented | src/pages/Cart.js:71 | `max(1, q - 1)` is at least one: `q - 1` above one, and 1 otherwise |
| CartPage.Incremented | src/pages/Cart.js:77 | the plus button raises the quantity by exactly one |
| CartPage.SteppingRoundTrips | src/pages/Cart.js:71-77 | minus undoes plus, and plus undoes minus above one |
| CartPage.Rows | src/pages/Cart.js:41-95 | one row per cart line, in order, each built from its own line |
| CartPage.RowButtonsTargetTheirLine | src/pages/Cart.js:66-90 | each row's minus and plus update that line's id (minus never below one, plus to `q + 1`), the bin removes that id, and the subtotal is price times quantity |
| CartPage.RowLinksToProductPage | src/pages/Cart.js:45-59 | with the corrected link, a row links to the product page with the line's id as the route parameter |
| CartPage.MinusNeverRemoves | src/pages/Cart.js:66-90 | the minus button never removes a line and never sets quantity 0 |
| CartPage.CartView | src/pages/Cart.js:10-25 | the empty view, with its link to `/products`, is shown exactly for an empty cart |
| CartPage.CheckoutOnlyWithLines | src/pages/Cart.js:10-32 | checkout is offered exactly when the cart has lines, and the header count is the number of lines, not of units |
| ProductSchema.NameViolation | server/models/Product.js:4-8 | the name is reported missing with its message exactly when it is absent or trims to nothing |
| ProductSchema.PriceViolation | server/models/Product.js:9-13 | a missing price is reported as required; the price passes exactly when present and not negative |
| ProductSchema.ImageViolation | server/models/Product.js:14-17 | the image is reported missing exactly when it is absent or empty |
| ProductSchema.CategoryViolation | server/models/Product.js:18-22 | a missing or empty category is reported as required; the category passes exactly when it is one of the four |
| ProductSchema.DescriptionViolation | server/models/Product.js:23-26 | the description is reported missing exactly when it is absent or empty |
| ProductSchema.RatingViolation | server/models/Product.js:27-32 | the rating, defaulting to 0, passes exactly when it lies in [0, 5] |
| ProductSchema.StockViolation | server/models/Product.js:37-41 | the stock, defaulting to 0, passes exactly when it is not negative |
| ProductSchema.FoundEmptyIff | server/models/Product.js:3-41 | no violation is found exactly when every check passes |
| ProductSchema.ChecksPassIff | server/models/Product.js:3-41 | every path check passes exactly when the document meets the schema's rules |
| ProductSchema.NoViolationsIff | server/models/Product.js:3-41 | a document has no violation exactly when it meets the rules |
| ProductSchema.CreateSpec | server/models/Product.js:3-44 | a document is saved exactly when it meets the rules, and every saved product meets the record invariant |
| ProductSchema.CreateFillsDefaults | server/models/Product.js:27-41 | a saved product's name is trimmed; absent rating, inStock and stock take 0, true and 0; given values are kept |
| ProductSchema.BlankNameIsMissing | server/models/Product.js:4-8 | a name of only whitespace is rejected with the schema's "Please add a product name", reported first |
| ProductSchema.FoundDistinct | server/models/Product.js:3-41 | checks that each report on their own path report each path at most once |
| ProductSchema.OneViolationPerPath | server/models/Product.js:3-41 | no path is reported twice |
| ProductSchema.CreateRoundTrip | server/models/Product.js:3-44 | saving a valid product's own document gives that product back |
| AppRoutes.Resolve | src/App.js:49-61 | a resolved route is in the table and matches the path; no route means no pattern matches |
| AppRoutes.MatchedIndex | src/App.js:50-60 | whichever route a path matches is determined by the path, so no two routes of the table match one path |
| AppRoutes.ResolveUnique | src/App.js:49-61 | a path matching a route resolves to that route |
| AppRoutes.PublicRoute | src/App.js:22-39 | a placeholder while loading; `/login` when nobody is signed in; a signed-in user on `/login` or `/register` is sent to the landing page of their role (`/admin` or `/`); the child exactly when not loading, signed in, and on any other path |
| AppRoutes.PublicRouteNeverRedirectsSignedIn | src/App.js:34-36 | no route wrapped by `PublicRoute` is at `/login` or `/register`, so a signed-in user always sees the page and the landing redirect is never taken |
| AppRoutes.PublicPagesNeedSignIn | src/App.js:29-31 | every page behind `PublicRoute`, the home page included, sends a visitor who is not signed in to `/login` |
| AppRoutes.GatesOfTheTable | src/App.js:50-60 | `/admin` is the only admin-only route; checkout, order success and profile are the protected ones; only login and register are open |
| AppRoutes.AdminPathIsAdminOnly | src/App.js:60 | `/admin` resolves to the admin-only gate |
| AppRoutes.ProductLinkAsWrittenResolvesNowhere | src/pages/Cart.js:45 | the product link as written, `/products/<id>`, selects no route |
| AppRoutes.ProductLinkResolves | src/App.js:55 | `/product/<id>` resolves to the product page behind `PublicRoute`, with the id as its parameter |

## Left out

- The cart provider (`CartContext`): its internals are not part of this model. Its operations are calls in a page log or the `Action` of a cart-page control, and the cart total is an input.
- The order controller and the `protect`/`admin` middleware bodies are not part of this model. Ownership checks on orders live there.
- The API requests, `localStorage`, the authentication context, and `alert`: these are I/O. Each outcome is an input of the handler that awaits it. Unseen calls are taken not to throw.
- Concurrency and React's state batching are not modelled. Each handler runs to completion on the state it read.
- Money is integer cents, not JavaScript floats; ratings and stock are reals, so a fractional stock such as 2.5 passes `min: 0` as it does in the schema. `toFixed` rendering is left out.
- Mongoose casting from other JavaScript types and the `timestamps` option are left out. Ratings and stock are reals used only in comparisons.
- Express case-insensitive matching, trailing slashes and `HEAD` are left out. Paths arrive already split at '/'. The same holds for the client router.
- The browser's `required` attributes on the registration form's inputs (src/pages/Register.js:151-190) are left out. They can stop submission before `handleSubmit` runs, and their exact behaviour is the browser's. The checkout form is `noValidate` (src/pages/Checkout.js:153), so its own validator decides.
- The registration page's role-choice screen (`selectedRole`) is left out. It only decides whether the form is shown, and the role is not passed to `register`.
- Register.RegisterPage.HandleSubmit: the `loading` flag is not reset after a successful registration, and the model states this as the code does.
- ProductDetail.ProductDetailPage.LoadProduct: the quantity is not reset when the page's id changes, as in the code. The scroll-to-top effect is left out.
- Text.Utf16Length: only the count of code units is modelled. Characters are code points, so lone surrogates are not represented.
- Presentation-only parts are left out: images, star ratings, the order summary's fixed shipping and tax, and the other pages.
- `ProtectedRoute` is not part of this model. Routes record only which gate wraps which page.
- CartPage.Rows: each row links to the corrected `/product/<id>`, not to `/products/<id>` as src/pages/Cart.js:45 and :59 build it (see Findings). `AppRoutes.ProductLinkAsWritten` keeps the link as written, and `AppRoutes.ProductLinkAsWrittenResolvesNowhere` proves it matches no route.
- The `console.error` logging in the failure paths (src/pages/Checkout.js:107, src/pages/ProductDetail.js:39) is I/O and is left out. The alert on a failed order is modelled.
- The `maxLength` limits on the card, expiry and CVV inputs (src/pages/Checkout.js:222, 233, 238) are left out, so the handlers accept values of any length. No contract relies on a length limit; the formatted card number is proved to be at most 19 long.
- The product card component builds the same `/products/<id>` link as the cart (see Findings). Only the cart's use is modelled.

## Findings

| source | as written | input that shows it | evidently intended | confidence | as-written member | corrected member |
|---|---|---|---|---|---|---|
| src/pages/Cart.js:45 | the cart row links its image and name to `/products/${item._id}` (also line 59), but the product page is registered at `/product/:id` (src/App.js:55), and `/products` takes no id | any id, e.g. `42`: `/products/42` matches no route of the table | link to `/product/${item._id}` | high, not executed | AppRoutes.ProductLinkAsWrittenResolvesNowhere | AppRoutes.ProductLinkResolves |

The cart rows of the model (`CartPage.RowFor`) use the corrected link, and `CartPage.RowLinksToProductPage` proves that it opens the product page.
