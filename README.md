# Storefront core in Dafny

A model of the logic inside a small Next.js storefront. The storefront keeps
per-user carts and address books in Firestore and a fallback cart in the
browser's `localStorage`. It has a cart page with totals, an order summary that
places an order with a 2% tax, a payment screen that masks and checks card
details, and an admin form for adding products. The model covers these pieces:

- **Card fields** (`payment.dfy`, with `jstext.dfy` for the JavaScript string
  operations it relies on):
  - the card-number mask in groups of four;
  - the `MM/YY` expiry mask;
  - the Luhn check-digit test;
  - the prefix table of card brands;
  - the expiry test against a given current year and month;
  - the input guards of the change handlers;
  - the order of the checks on submit.
- **The Firestore cart** (`cart_store.dfy`): one `productId ↦ quantity` table
  per user, with add, set-or-delete, remove and read-all.
- **Views of that cart:**
  - the cart page's line items and totals (`cart_page.dfy`);
  - the shared cart context and its item count (`cart_context.dfy`).
- **The order summary** (`order_summary.dfy`):
  - the address selector and its add-address form;
  - the tax;
  - the gate that writes the order draft to session storage.
- **The address book** (`addresses.dfy`): documents stored under fresh ids.
- **The `localStorage` list cart** (`local_cart.dfy`).
- **The admin product form** (`product_add.dfy`):
  - up to four images with previews;
  - the admin gate;
  - the submit that uploads the images and adds the product.

## How it is modelled

- **Classes.** Objects whose state the source updates step by step are classes:
  - the stores;
  - the React pages, whose `useState` fields become class fields;
  - session and local storage.
- **Methods.** Each handler is a method. Its `ensures` gives the whole new state
  in terms of the old one. It does so through functions such as `Incremented`,
  `WithQuantity`, `Removed`, `WithoutId`, `WithQty` and `RemoveIndex`, and the
  properties the source promises are proved about those functions.
- **JavaScript semantics, written out:**
  - `\s` is the full JavaScript white-space set;
  - `parseInt` skips leading white space, accepts a sign, reads the longest digit
    prefix, and gives NaN (`None`) when there is none;
  - comparisons with NaN are false (`Below`, `Above`);
  - `split` returns every piece.

  Strings are sequences of Unicode characters. JavaScript's `.length` counts
  UTF-16 code units instead; "## Left out" says where this matters.

One consequence of the NaN comparisons is `Payment.UnreadableMonthAccepted`. A
two-character month that `parseInt` cannot read passes the month range test and
the "month already past" test. Such a date is accepted exactly when its year is
not before the current one. The
expiry mask only ever produces digits, so the payment form never reaches this
case (`Payment.ExpiryOfMask`).

For whole non-negative amounts, `Math.floor(amount * 0.02)` agrees with exact
integer division by 50. The model therefore states the tax as the unique `t`
with `50t <= amount < 50t + 50`.

## Model

| member | source | states |
|---|---|---|
| JsText.RemoveSpaces | src/app/payment/page.tsx:60 | `replace(/\s/g, "")`: no white space is left, and the result is no longer than the input |
| JsText.RemoveSpacesCounts | src/app/payment/page.tsx:60 | every character that is not white space is kept, as many times as it occurs |
| JsText.RemoveSpacesAppend | src/app/payment/page.tsx:60 | the filter distributes over concatenation, so the kept characters stay in order |
| JsText.KeepDigits | src/app/payment/page.tsx:34 | `replace(/[^0-9]/gi, "")`: only decimal digits are left, and the result is no longer than the input |
| JsText.KeepDigitsCounts | src/app/payment/page.tsx:34 | every digit is kept, as many times as it occurs, and nothing else is |
| JsText.KeepDigitsAppend | src/app/payment/page.tsx:34 | the filter distributes over concatenation, so the digits stay in order |
| JsText.KeepDigitsAfterRemoveSpaces | src/app/payment/page.tsx:34 | removing white space first and then the non-digits is the same as keeping the digits |
| JsText.RemoveSlashes | src/app/payment/page.tsx:183 | `replace(/\//g, "")`: no slash is left |
| JsText.RemoveSlashesCounts | src/app/payment/page.tsx:183 | every character other than `/` is kept, as many times as it occurs |
| JsText.RemoveSlashesAppend | src/app/payment/page.tsx:183 | the filter distributes over concatenation, so the kept characters stay in order |
| JsText.Split | src/app/payment/page.tsx:100 | `split("/")` yields at least one piece, and no piece contains the separator |
| JsText.JoinSplit | src/app/payment/page.tsx:100 | joining the pieces of a split with the separator gives back the original string |
| JsText.ParseInt | src/app/payment/page.tsx:106-107 | `parseInt(s, 10)` is NaN exactly when no digit follows the leading white space and optional sign |
| JsText.ParseIntOf | src/app/payment/page.tsx:106-107 | after white space and an optional `+`/`-`, a run of digits that ends at a non-digit or at the end parses to its signed decimal value |
| JsText.ParseTwoDigits | src/app/payment/page.tsx:106 | two digits parse to their decimal value |
| JsText.ParseCentury | src/app/payment/page.tsx:107 | `parseInt("20" + yy)` on two digits is 2000 plus their value |
| Payment.Blocks | src/app/payment/page.tsx:39-41 | the loop pushes exactly the consecutive 4-character slices of the run |
| Payment.GroupsShape | src/app/payment/page.tsx:39-41 | the slices concatenate back to the run, there are ⌈n/4⌉ of them, all but the last have length 4, and the last has length 1 to 4 |
| Payment.FormatCardNumber | src/app/payment/page.tsx:33-48 | the loop-built result equals the card-number mask |
| Payment.CardMaskRoundTrip | src/app/payment/page.tsx:33-44 | with at least 4 digits typed, the mask without spaces is the first min(n,16) digits, and splitting it on spaces gives the groups of four |
| Payment.SplitJoinDigits | src/app/payment/page.tsx:44 | joining digit groups with single spaces and splitting on spaces gives the groups back |
| Payment.CardMaskShortInput | src/app/payment/page.tsx:43-47 | with fewer than 4 digits typed, the input comes back unchanged |
| Payment.LuhnValue | src/app/payment/page.tsx:72-77 | a digit, doubled and reduced by 9 when above 9, is still 0 to 9 |
| Payment.IsValidCardNumber | src/app/payment/page.tsx:59-84 | true iff the white-space-free number is 13 to 19 digits and its Luhn sum (every second digit from the right doubled) is divisible by 10 |
| Payment.LuhnValueInjective | src/app/payment/page.tsx:72-77 | two different digits in the same position always contribute differently |
| Payment.LuhnDetectsSingleDigitError | src/app/payment/page.tsx:66-83 | changing any one digit of a number that passes makes it fail |
| Payment.CheckDigit | src/app/payment/page.tsx:66-83 | every digit string has exactly one final digit that makes the Luhn sum divisible by 10 |
| Payment.DetectCardType | src/app/payment/page.tsx:87-96 | with white space removed: Visa iff it starts with 4; Mastercard iff 51–55; American Express iff 34 or 37; Discover iff 6011 or 65; otherwise Unknown. The prefixes exclude one another, so the first matching rule is the only one |
| Payment.BrandFromFirstFour | src/app/payment/page.tsx:87-96 | the brand depends only on the first four characters after white space is removed |
| Payment.BrandStableUnderTyping | src/app/payment/page.tsx:87-96 | once a brand is recognised, typing more characters does not change it |
| Payment.BrandOfMask | src/app/payment/page.tsx:163-166 | the brand shown for the mask is the brand of the digits typed |
| Payment.FormatExpiryDate | src/app/payment/page.tsx:50-56 | with at least 2 digits, the mask splits on "/" into the first two digits and up to two more; otherwise it is the digits only; either way it holds the first min(n,4) digits |
| Payment.ExpiryMaskShape | src/app/payment/page.tsx:53 | `MM + "/" + YY` on digits splits into `[MM, YY]`, and has `MMYY` as its slash-free form |
| Payment.IsValidExpiryDate | src/app/payment/page.tsx:99-126 | accepted only when there are two pieces of length 2 around a "/", the year 20YY is not before the current year, and a readable month is 1 to 12 and not past in the current year |
| Payment.ExpiryOnDigits | src/app/payment/page.tsx:99-126 | on two-digit MM and YY the date is valid iff 1 <= MM <= 12 and (2000+YY, MM) is not before the current (year, month) |
| Payment.ExpiryMalformed | src/app/payment/page.tsx:100-104 | a date without a slash, or whose first two pieces are not both 2 characters long, is refused |
| Payment.UnreadableMonthAccepted | src/app/payment/page.tsx:106-125 | a month that `parseInt` cannot read fails no month test, so with a two-digit year the date is accepted iff 2000 + YY is not before the current year |
| Payment.ExpiryOfMask | src/app/payment/page.tsx:99-126 | the expiry mask of an input passes iff at least four digits were typed, the first two are a month 1 to 12, and that month is not past |
| Payment.SubmitCheck | src/app/payment/page.tsx:198-221 | the first failing check in the order empty field, Luhn, expiry, CVV length 3 decides the outcome; acceptance iff all pass |
| Payment.PaymentForm.constructor | src/app/payment/page.tsx:13-18 | all fields start empty, there is no brand, and processing is off |
| Payment.PaymentForm.CardNumberChanged | src/app/payment/page.tsx:162-179 | the mask and its brand are taken iff the mask has at most 16 characters besides white space; otherwise nothing changes; the form invariant is kept |
| Payment.CardMaskWithinGuard | src/app/payment/page.tsx:164 | with four or more digits typed, the mask always passes the 16-character guard |
| Payment.PaymentForm.CardNameChanged | src/app/payment/page.tsx:309 | the holder name is what was typed |
| Payment.PaymentForm.ExpiryChanged | src/app/payment/page.tsx:181-186 | the expiry mask is taken iff it holds at most 4 digits |
| Payment.ExpiryMaskWithinGuard | src/app/payment/page.tsx:183 | the expiry mask always holds at most 4 digits, so that guard never refuses |
| Payment.PaymentForm.CvvChanged | src/app/payment/page.tsx:188-193 | the CVV becomes the digits typed iff there are at most 3; otherwise it is unchanged; it is always at most 3 digits |
| Payment.PaymentForm.Submit | src/app/payment/page.tsx:195-223 | the outcome is the ordered check, and processing starts exactly on acceptance |
| CartStore.Incremented | src/lib/cart.ts:15-29 | adding gives the product quantity +1 when present and 1 when absent; other entries stay; positivity is kept |
| CartStore.AddedTimesFromAbsent | src/lib/cart.ts:15-29 | n adds of an absent product leave it at quantity n, and the other entries are untouched |
| CartStore.WithQuantity | src/lib/cart.ts:31-44 | a quantity <= 0 deletes the entry; a positive one sets it; other entries stay; positivity is kept |
| CartStore.Removed | src/lib/cart.ts:46-49 | the entry is gone, the others stay, removing an absent entry changes nothing, and positivity is kept |
| CartStore.RemovedIdempotent | src/lib/cart.ts:46-49 | removing twice is removing once |
| CartStore.SumOfOperations | src/lib/cart.ts:15-49 | an add raises the total quantity by 1; a remove lowers it by the entry's quantity; setting q replaces the entry's quantity with q, or with nothing when q <= 0 |
| CartStore.SumOfPositive | src/lib/cart.ts:38-43 | when every quantity is positive, the total is at least the number of entries, and it is 0 iff the cart is empty |
| CartStore.CartStore.AddToCart | src/lib/cart.ts:15-29 | only that user's cart changes, by `Incremented` |
| CartStore.CartStore.UpdateCartQuantity | src/lib/cart.ts:31-44 | succeeds iff the quantity is <= 0 or the entry exists; on success only that cart changes, by `WithQuantity`; otherwise nothing changes |
| CartStore.CartStore.RemoveFromCart | src/lib/cart.ts:46-49 | only that user's cart changes, by `Removed` |
| CartStore.CartStore.GetCart | src/lib/cart.ts:51-62 | the loop over the documents returns exactly the stored table |
| CartPage.CartCount | src/app/cart/page.tsx:64-66 | 0 for no items; at least the number of items when every quantity is positive |
| CartPage.CartAmount | src/app/cart/page.tsx:68-73 | 0 for no items; never negative when prices and quantities are not |
| CartPage.JoinCount | src/app/cart/page.tsx:64-66 | the count over the line items equals the total quantity in the cart |
| CartPage.JoinAmount | src/app/cart/page.tsx:68-73 | the amount over the line items equals the sum, over the cart's entries, of offer price times stored quantity |
| CartPage.EmptyCartTotals | src/app/cart/page.tsx:64-73 | an empty cart has no line items, count 0 and amount 0 |
| CartPage.RemovalTotals | src/app/cart/page.tsx:57-61 | after a removal the item is no longer listed, and count and amount drop by exactly its contribution |
| CartPage.CartPage.constructor | src/app/cart/page.tsx:21-22 | no items, loading |
| CartPage.CartPage.LoadCart | src/app/cart/page.tsx:25-42 | without a user nothing changes; otherwise there is one line item per cart key, carrying the stored quantity and the looked-up product, and loading ends |
| CartPage.CartPage.HandleDecrease | src/app/cart/page.tsx:45-49 | stores quantity − 1 (deleting at 0), then reloads and ends loading; does nothing at all without a user or when the store refuses |
| CartPage.CartPage.HandleIncrease | src/app/cart/page.tsx:51-55 | exactly `addToCart`, then a reload that ends loading; does nothing at all without a user |
| CartPage.CartPage.HandleRemove | src/app/cart/page.tsx:57-61 | deletes the entry, then reloads and ends loading; does nothing at all without a user |
| CartContext.CartContext.constructor | src/context/CardContext.tsx:27 | the mirrored cart starts empty |
| CartContext.CartContext.RefreshCart | src/context/CardContext.tsx:29-33 | with a user, the mirror becomes the stored cart; without one, it is unchanged |
| CartContext.CartContext.AddItem | src/context/CardContext.tsx:39-43 | without a user, asks to log in and writes nothing; otherwise adds, reloads, and the count rises by one |
| CartContext.CartContext.UpdateQty | src/context/CardContext.tsx:45-49 | a no-op without a user; otherwise the store applies `WithQuantity` and the mirror is reloaded, or nothing changes when the store refuses |
| CartContext.CartContext.RemoveItem | src/context/CardContext.tsx:51-55 | a no-op without a user; otherwise the entry is deleted and the mirror reloaded |
| CartContext.CartContext.CartCount | src/context/CardContext.tsx:57 | the loop's sum equals the total quantity of the mirrored cart |
| Addresses.StoredAddress | src/lib/addresses.ts:12-16 | the document has the supplied fields plus `id` and `createdAt`; its `id` is the new key when the data has none; the supplied fields are kept; `createdAt` is the time |
| Addresses.FreshIdExists | src/lib/addresses.ts:11 | whatever ids are taken, an unused one exists |
| Addresses.AddressBook.SaveAddress | src/lib/addresses.ts:10-19 | the returned id was unused; only that user's book changes, gaining that one document |
| Addresses.AddressBook.GetAddresses | src/lib/addresses.ts:21-25 | one record per stored document of the user, each document's data, none missed or repeated |
| Addresses.AddressBook.DeleteAddress | src/lib/addresses.ts:27-30 | only that document of that user is gone |
| OrderSummary.Tax | src/components/OrderSummary.tsx:85 | the tax is the floor of amount/50: 50·t <= amount < 50·t + 50, and it is non-negative for non-negative amounts |
| OrderSummary.TaxIsFloor | src/components/OrderSummary.tsx:85 | that floor is unique |
| OrderSummary.TaxExamples | src/components/OrderSummary.tsx:85-86 | 250 is taxed 5 for a total of 255; 99 is taxed 1 for a total of 100 |
| OrderSummary.PlaceOrder | src/components/OrderSummary.tsx:65-92 | an empty cart is refused whatever the address; then no address or the "add" option is refused; otherwise the draft carries the selected address, count, amount, the tax, and total = amount + tax |
| OrderSummary.FindById | src/components/OrderSummary.tsx:128 | the first listed address with that id, or nothing iff no listed address has it |
| OrderSummary.SavedAddressId | src/components/OrderSummary.tsx:45-50 | an address saved from the form carries its new key as its `id` |
| OrderSummary.OrderSummary.constructor | src/components/OrderSummary.tsx:22-31 | nothing listed, nothing selected, the form closed and empty |
| OrderSummary.OrderSummary.LoadAddresses | src/components/OrderSummary.tsx:34-38 | without a user nothing changes; otherwise the list is exactly the user's book |
| OrderSummary.OrderSummary.OpenAddressForm | src/components/OrderSummary.tsx:105-107 | the form opens |
| OrderSummary.OrderSummary.CancelAddressForm | src/components/OrderSummary.tsx:185-186 | the form closes |
| OrderSummary.OrderSummary.FieldChanged | src/components/OrderSummary.tsx:149-176 | typing sets the one field typed into, and only it |
| OrderSummary.OrderSummary.FormFilled | src/components/OrderSummary.tsx:42 | the guard passes iff every field of the object handed to `saveAddress` is a non-empty string |
| OrderSummary.OrderSummary.HandleAddAddress | src/components/OrderSummary.tsx:41-59 | refused iff a field is empty; without a user nothing is saved; otherwise one new address is stored under an unused id, the form is cleared and closed, and the list is reloaded |
| OrderSummary.OrderSummary.SaveForm | src/components/OrderSummary.tsx:45-56 | saves the form's address, then clears and closes the form, keeping the selection |
| OrderSummary.OrderSummary.SelectAddress | src/components/OrderSummary.tsx:119-130 | "add" clears the selection and opens the form; any other value selects the first address with that id, or nothing |
| OrderSummary.OrderSummary.HandlePlaceOrder | src/components/OrderSummary.tsx:65-92 | the draft is written to session storage exactly when the order is placed |
| LocalCart.WithoutId | src/lib/localCart.ts:13 | keeps exactly the items without that id |
| LocalCart.WithoutIdAppend | src/lib/localCart.ts:13 | the filter distributes over concatenation, so the kept items keep their order |
| LocalCart.WithoutIdIdempotent | src/lib/localCart.ts:12-15 | removing twice is removing once |
| LocalCart.WithoutAbsentId | src/lib/localCart.ts:13 | with no item of that id the list is unchanged |
| LocalCart.WithQty | src/lib/localCart.ts:18-20 | the length is the same; every item with that id gets `qty`; every other item is unchanged, in place |
| LocalCart.RemoveAfterUpdate | src/lib/localCart.ts:12-22 | removing after a quantity update removes the same items as removing directly |
| LocalCart.LocalCart.GetCart | src/lib/localCart.ts:1-4 | the empty list without a window or without a stored value; otherwise the stored list |
| LocalCart.LocalCart.AddToCart | src/lib/localCart.ts:6-10 | the item goes at the end, and the earlier items are as they were; without a window nothing is stored |
| LocalCart.LocalCart.RemoveFromCart | src/lib/localCart.ts:12-15 | stores the list filtered by `WithoutId`; without a window nothing is stored |
| LocalCart.LocalCart.UpdateQuantity | src/lib/localCart.ts:17-22 | stores the list mapped by `WithQty`; without a window nothing is stored |
| LocalCart.LocalCart.ClearCart | src/lib/localCart.ts:24-26 | the key is removed and the cart reads as empty |
| ProductAdd.View | src/app/product/add/page.tsx:24-32 | "loading" until the session is loaded, then the form iff the role is "admin", else "not authorized" |
| ProductAdd.RemoveIndex | src/app/product/add/page.tsx:51-52 | an in-range index drops that one entry and keeps the others in order; any other index keeps the list |
| ProductAdd.RemoveIndexRestore | src/app/product/add/page.tsx:50-53 | putting the removed entry back at its index restores the list |
| ProductAdd.UploadAll | src/app/product/add/page.tsx:61-76 | one URL per file, in file order |
| ProductAdd.AddProductForm.constructor | src/app/product/add/page.tsx:14-20 | no images, empty texts, category "Clothing" |
| ProductAdd.AddProductForm.HandleImageSelect | src/app/product/add/page.tsx:35-47 | no file changes nothing; with 4 images held the choice is refused; otherwise the file and its preview are appended; at most 4 images, paired with their previews |
| ProductAdd.AddProductForm.RemoveImage | src/app/product/add/page.tsx:50-53 | the same index is removed from both lists, so they stay paired |
| ProductAdd.AddProductForm.FieldChanged | src/app/product/add/page.tsx:149-213 | typing into an input, or choosing a category, sets that one field and leaves the images alone |
| ProductAdd.AddProductForm.HandleSubmit | src/app/product/add/page.tsx:56-100 | refused before any upload iff no image is held; otherwise adds one product document with the uploaded URLs and resets the form to blank with category "Clothing" |

## Left out

- Firestore, Clerk, Cloudinary, `fetch`, and the JSON encoding of `localStorage` and `sessionStorage` are not modelled. Stores are in-memory maps and sequences, and the signed-in user is an optional id.
- Promise ordering is not modelled. Every awaited call completes before the next statement runs. The reloads that the handlers start without awaiting (`loadCart()`, `refreshCart()`, `loadAddresses()`) complete at once.
- Races between rapid clicks and last-write-wins on the store are not modelled, because the code has no concurrency of its own to check.
- The time of day (`new Date()`, `serverTimestamp()`) is not read. The current year and month, and the creation time, are parameters.
- Floating-point prices are not modelled. Prices and amounts are integers.
- `Number(price)` in the product form is not modelled. The product document keeps the price texts as typed.
- `toFixed(2)` display is not modelled.
- The product lookup (`getSingleProduct`) is a total function parameter. A product that no longer exists is therefore not modelled. `src/lib/getProducts.ts` is not part of this model.
- The BIN lookup `validateCardAdvanced` and the `cardInfo`/`validating` state are not modelled. They are an advisory network call.
- The payment page's load effect, which reads the draft or redirects, is not modelled.
- After an accepted payment, the two-second `setTimeout` and what it does are not modelled: clearing the stored draft, the redirect, and resetting `processing`.
- Toasts and alerts are not modelled. Each becomes the outcome value that the handler returns.
- JSX rendering is not modelled. This covers which controls are shown, for example the "+ Add" button only while fewer than four images are held.
- Browser-side `required` checks on the product form's inputs are not modelled.
- Payment.PaymentForm.CardNumberChanged, Payment.IsValidExpiryDate and Payment.ExpiryMalformed: lengths count Unicode characters, not the UTF-16 code units that JavaScript's `.length` counts. The two differ on characters outside the Basic Multilingual Plane, such as emoji. Nine emoji typed into the card-number field are refused by the source's 16-character guard but taken by the model. An emoji month such as "😀/30" passes the source's length test but is refused by the model. Digit-only input, which is all the masks produce once four digits are typed, is unaffected.
- OrderSummary.OrderSummary.HandleAddAddress: with no signed-in user, `userId!` makes the store call fail. This is modelled as the outcome `NotSignedIn`, with nothing written and the form kept.
- Addresses.AddressBook.SaveAddress: does not model the 20-character random shape of Firestore ids. Any id not already used may come back.
- Addresses.AddressBook.GetAddresses: does not fix the order of the listed documents. Firestore lists them by document id, and the model allows any order.
- CartPage.CartPage.LoadCart: does not fix the order of the line items. `Object.keys` lists integer-like keys first, in ascending order, and then the other keys in insertion order. Here the insertion order is the order in which the snapshot lists the documents. The model allows any order.
- Upload failures (a response without `secure_url`) are not modelled. `ProductAdd.UploadAll` takes the upload as a total function.
