# LEO storefront — a Dafny model of the cart, checkout and order routes

This project models the core of the LEO storefront. It is a Next.js shop where customers configure
display products: flags, pop-up stands and counters. Each configured product goes into a cart kept
per signed-in user in browser storage. Checkout posts the cart as an order, and a small admin area
lists and deletes users and edits order items.

The project has one Dafny module per core source file, plus a few shared modules.

- `Wrappers`: `Option` and a generic first-match search (`Array.prototype.find`).
- `Json`: option values and the canonical form `JSON.stringify` renders for them.
- `Auth`: the next-auth session.
- `Http`: status codes and response bodies.
- `Strings`: prefix test, first-occurrence replace, lexicographic order.
- `Sorting`: a generic insertion sort, used for `orderBy`.
- `Db`: the Prisma tables `User`, `Order`, `OrderItem` as one `Database` class.
- `Cart` (`components/providers/next-auth-provider.tsx`): the cart provider. It is a class whose fields are the
  session, the cart and the storage map. Add, remove and clear update the cart and write it back to
  the signed-in user's slot `leo_cart_<email>`. Entries merge on the key (product id, serialized
  options). The merge keeps that key unique, and the total quantity grows by exactly the added
  quantity.
- `Checkout` (`app/checkout/page.tsx`): the checkout page's loading, error and success state, and
  what the "Place Order" button sends.
- `OrdersRoute`, `OrderItemsRoute`, `RegisterRoute`, `UsersRoute` (`app/api/...`): the API
  handlers. Each is a function that decides the response, plus a method that applies the decision
  to the `Database` fields it modifies.
- `RegisterPage` (`app/admin/register/page.tsx`): password strength scoring, its text and colour.
- `Upload`: the image-type test on an uploaded file.
- `FlagsPage`, `PopupStandsPage`, `CounterPage` (`app/products/...`): the three configurators.
  Each is a class over the page state, with the cart item that "Add to cart" builds.

JSON text is modelled by its canonical form (`Json.Serialized`). Keys whose value is `undefined` are
dropped, and the other pairs keep their insertion order. That is what `JSON.stringify` does for an
object whose keys are distinct and not array indices (`Json.JsObject`). Every options object the
configurators build is such an object. Two option objects give the same text exactly when their canonical
forms are equal. That is what the provider's `JSON.stringify(a) === JSON.stringify(b)` comparison
relies on.

Where the source and its written description differ, the model follows the source:

- Items posted to `/api/orders` keep a quantity of 0 or below. Only the admin order-item route
  rejects a zero quantity, through its falsy test.
- Adding an item with the same product id but different options makes a second cart entry.
- The flag configurator's `link` option takes part in the merge key, so two identical flags with
  different links stay apart.

## Model

| member | source | states |
|---|---|---|
| Json.Get | components/providers/next-auth-provider.tsx:51 | a defined value returned is stored under the key; a key with no pair reads as `undefined` |
| Json.DropUndefined | components/providers/next-auth-provider.tsx:51 | the rendered object holds no `undefined` value and is never longer than the input |
| Json.DropUndefinedMembers | components/providers/next-auth-provider.tsx:51 | the pairs written out are exactly the record's defined pairs |
| Json.DropUndefinedDistinct | components/providers/next-auth-provider.tsx:51 | serializing an object keeps its keys distinct |
| Json.GetDropUndefined | app/api/orders/route.ts:34-36 | in an object, every key reads the same value before and after serialization |
| Json.SerializedIdempotent | components/providers/next-auth-provider.tsx:34-45 | parsing a stored cart and stringifying it again yields the same canonical options |
| Json.UndefinedKeyInvisible | components/providers/next-auth-provider.tsx:51 | in an object with distinct keys, a key set to `undefined` does not change the stringified options, so such items merge with items lacking the key |
| Json.LetterKeysMakeJsObject | components/providers/next-auth-provider.tsx:51 | distinct keys that start with a non-digit form an object whose pairs `JSON.stringify` writes in insertion order |
| Json.GetDistinct | components/providers/next-auth-provider.tsx:51 | in an object with distinct keys, reading an entry's key gives that entry's value |
| Json.KeyOrderMatters | components/providers/next-auth-provider.tsx:51 | two defined pairs under distinct non-index keys, inserted in the other order, stringify differently, so those items do not merge |
| Auth.SignedInEmail | components/providers/next-auth-provider.tsx:31-32 | a storage slot exists only for a session whose user has a non-empty email |
| Strings.ReplaceFirst | app/products/popup-stands/page.tsx:53 | the length is kept, every other character is kept, and text without the character is returned unchanged |
| Strings.ReplaceFirstAt | app/products/popup-stands/page.tsx:53 | when the first occurrence is at position i, exactly that character becomes the replacement and the text around it is kept |
| Strings.ReplaceFirstRemovesSingle | app/products/popup-stands/page.tsx:53 | when the character occurs at most once and the replacement differs, none is left afterwards |
| Strings.LexLeTotal | app/api/admin/users/route.ts:15 | the name order used for `orderBy: name asc` is total |
| Wrappers.Find | app/products/flags/page.tsx:382 | the result is the first element satisfying the test; there is none exactly when no element does |
| Sorting.SortBy | app/api/orders/route.ts:65 | the sorted list is a permutation of the input, of the same length |
| Sorting.SortBySorted | app/api/orders/route.ts:65 | with a total order the result is sorted |
| Cart.Bumped | components/providers/next-auth-provider.tsx:53-57 | each entry with the added item's key gains its quantity; every other entry and the length are unchanged |
| Cart.Removed | components/providers/next-auth-provider.tsx:63-65 | no remaining entry has the product id, and every other entry stays with its multiplicity |
| Cart.Added | components/providers/next-auth-provider.tsx:49-60 | the cart keeps its length when an entry matches and grows by one otherwise; afterwards an entry matches the item; entries with another key are unchanged |
| Cart.AddMerges | components/providers/next-auth-provider.tsx:51-57 | when an entry has the same key, adding keeps the length and raises only that entry's quantity by the added quantity |
| Cart.AddAppends | components/providers/next-auth-provider.tsx:59 | when no entry has the key, adding appends the item at the end |
| Cart.AddKeepsOthers | components/providers/next-auth-provider.tsx:53-57 | entries with another key are left exactly as they were |
| Cart.BumpedKeys | components/providers/next-auth-provider.tsx:53-57 | bumping changes no entry's key |
| Cart.AddPreservesUnique | components/providers/next-auth-provider.tsx:49-60 | if no two entries share a key before adding, none do after |
| Cart.UniqueCountAtMostOne | components/providers/next-auth-provider.tsx:51 | in a cart with unique keys at most one entry matches an item, and exactly one does when any does |
| Cart.BumpedTotal | components/providers/next-auth-provider.tsx:53-57 | bumping raises the total quantity by the added quantity once per matching entry |
| Cart.AddTotal | components/providers/next-auth-provider.tsx:49-60 | adding to a unique cart raises the total quantity by exactly the added quantity, whether it merges or appends |
| Cart.AddTwiceMerges | components/providers/next-auth-provider.tsx:49-60 | adding the same configuration twice leaves one entry for it |
| Cart.DifferentOptionsTwoEntries | components/providers/next-auth-provider.tsx:51 | the same product with different serialized options gets a second entry |
| Cart.RemovedAppend | components/providers/next-auth-provider.tsx:64 | removal distributes over concatenation |
| Cart.RemovedNoop | components/providers/next-auth-provider.tsx:64 | removing an id no entry has leaves the cart unchanged |
| Cart.RemoveIdempotent | components/providers/next-auth-provider.tsx:63-65 | removing the same product twice equals removing it once |
| Cart.RemovedKeepsMembers | components/providers/next-auth-provider.tsx:64 | every entry left after removal was in the cart |
| Cart.UniqueTail | components/providers/next-auth-provider.tsx:63-65 | dropping the first entry of a unique cart keeps it unique, and the first entry shares no key with the rest |
| Cart.UniqueCons | components/providers/next-auth-provider.tsx:63-65 | an entry whose key differs from every entry of a unique cart can be put in front of it |
| Cart.RemovePreservesUnique | components/providers/next-auth-provider.tsx:63-65 | removal keeps keys unique |
| Cart.RoundTrip | components/providers/next-auth-provider.tsx:45 | an item read back from storage keeps its product id, quantity and merge key, and its options are already canonical |
| Cart.Stored | components/providers/next-auth-provider.tsx:45 | the stored cart has the same length; each entry keeps its merge key and quantity, and its options are canonical |
| Cart.StoredIdempotent | components/providers/next-auth-provider.tsx:34-45 | a cart loaded from storage and written back is stored unchanged |
| Cart.SlotKeyInjective | components/providers/next-auth-provider.tsx:32 | different emails have different storage slots |
| Cart.StoredUnique | components/providers/next-auth-provider.tsx:34-45 | writing a unique cart to storage keeps it unique |
| Cart.Persisted | components/providers/next-auth-provider.tsx:42-47 | without a signed-in email storage is unchanged; with one, loading that user's slot gives the stored cart back, and every other user's slot loads as before |
| Cart.Loaded | components/providers/next-auth-provider.tsx:30-39 | without a signed-in email the cart is empty; with one it is the stored cart, or empty when nothing is stored |
| Cart.CartProvider.constructor | components/providers/next-auth-provider.tsx:25-47 | on mount the cart is loaded from the user's slot and written back |
| Cart.CartProvider.Persist | components/providers/next-auth-provider.tsx:42-47 | storage becomes `Persisted` of the current cart: the signed-in user's slot receives the serialized cart, other slots are kept, and with no email storage is untouched |
| Cart.CartProvider.SessionChanged | components/providers/next-auth-provider.tsx:30-47 | a new session loads that user's cart and persists it, keeping unique keys |
| Cart.CartProvider.AddToCart | components/providers/next-auth-provider.tsx:49-61 | the cart becomes the merged cart, the slot is updated, and unique keys are preserved |
| Cart.CartProvider.RemoveFromCart | components/providers/next-auth-provider.tsx:63-65 | every entry with the product id is removed, the slot is updated, and unique keys are preserved |
| Cart.CartProvider.ClearCart | components/providers/next-auth-provider.tsx:67 | the cart becomes empty and the slot holds the empty cart |
| Checkout.FailureText | app/checkout/page.tsx:29-38 | a failed response shows its message, or "Failed to place order" when the message is empty; a thrown fetch shows the default |
| Checkout.CheckoutPage.constructor | app/checkout/page.tsx:15-17 | the page starts idle, with no error and no success |
| Checkout.CheckoutPage.StartPlaceOrder | app/checkout/page.tsx:19-27 | placing starts loading, clears the error, and sends `{ items: cart }` |
| Checkout.CheckoutPage.FinishPlaceOrder | app/checkout/page.tsx:28-41 | success clears the cart and sets success; failure keeps the cart and shows the failure text; loading always ends |
| Checkout.CheckoutPage.PlaceOrder | app/checkout/page.tsx:19-42 | the whole handler: the body sent is the cart as it was before the call; on success the cart is empty and the signed-in user's slot holds the empty cart; on failure cart and storage are unchanged and the failure text is shown |
| Checkout.CheckoutPage.ClickPlaceOrder | app/checkout/page.tsx:49-72 | nothing is sent and nothing changes when the cart is empty (no button) or a request is in flight (button disabled); otherwise the cart as it was is sent, loading ends, and the outcome is that of `PlaceOrder`: success empties cart and slot, failure keeps both and shows the failure text |
| Db.FindByEmail | app/api/orders/route.ts:21-22 | a user found is in the table and has the email; when none is found, no user has it |
| Db.WithoutUser | app/api/admin/users/route.ts:29 | the deleted user is gone and every other user remains |
| Db.FreshIdExists | app/api/orders/route.ts:27 | a fresh id not used by any existing row always exists |
| OrdersRoute.FromCart | app/checkout/page.tsx:27 | a posted item carries the cart entry's id, name, image and quantity, no type, and its options exactly when the entry has them, with no undefined value left |
| OrdersRoute.RequestBody | app/checkout/page.tsx:27 | the posted `items` array has one element per cart entry, in order, and is non-empty exactly when the cart is |
| OrdersRoute.OrNull | app/api/orders/route.ts:34-36 | `x || null` keeps exactly the truthy values, and never yields `null` or `undefined` |
| OrdersRoute.Snapshot | app/api/orders/route.ts:31-40 | an order line copies id, name and quantity, has a non-empty type, a size and link exactly when the options hold truthy ones, an image only when one was given, and empty options when none were sent |
| OrdersRoute.Snapshots | app/api/orders/route.ts:30-41 | one order line per request item, in order |
| OrdersRoute.CheckPost | app/api/orders/route.ts:8-24 | 401 without a session email, 400 when items are missing or empty, 404 for an unknown user; otherwise the order is accepted |
| OrdersRoute.Post | app/api/orders/route.ts:8-47 | an accepted order is appended with a fresh id, the user's id and the item snapshots, and is returned with 201; a rejection changes nothing |
| OrdersRoute.OrdersOf | app/api/orders/route.ts:62-66 | exactly the user's orders, as a sub-multiset of the table |
| OrdersRoute.GetOrders | app/api/orders/route.ts:49-68 | the status is 200, 401 or 404, and 200 exactly for a signed-in known user; the listing is never longer than the table |
| OrdersRoute.GetOrdersSpec | app/api/orders/route.ts:49-68 | the listing holds the signed-in user's orders, newest first; 401 and 404 as for POST |
| OrdersRoute.OrderMirrorsCart | app/api/orders/route.ts:31-40 | each order line copies the cart entry's id, name and quantity, keeps the defined options, has type "unknown", and takes its size and link from the `size` and `customLink` options when truthy, `null` otherwise; for a cart entry whose options are an object, these are the values the entry itself holds under those keys |
| OrderItemsRoute.GetItem | app/api/admin/order-items/route.ts:8-19 | 401 unless admin, 400 without an id, 404 for an unknown id, otherwise 200 with the item |
| OrderItemsRoute.Patched | app/api/admin/order-items/route.ts:42 | the id is kept; each column takes the update's value when the update names it and keeps its old value otherwise |
| OrderItemsRoute.PatchedIdempotent | app/api/admin/order-items/route.ts:42 | applying the same update twice equals applying it once, and the id never changes |
| OrderItemsRoute.Post | app/api/admin/order-items/route.ts:21-33 | 400 when a required field is falsy; otherwise a row with a fresh id is created and returned |
| OrderItemsRoute.Put | app/api/admin/order-items/route.ts:35-44 | 400 without an id; an existing row is updated with the given fields only; an unknown id fails and changes nothing |
| OrderItemsRoute.Delete | app/api/admin/order-items/route.ts:46-55 | 400 without an id; an existing row is removed and `true` returned; an unknown id fails and changes nothing |
| RegisterRoute.PublicIgnoresPassword | app/api/register/route.ts:51-54 | users differing only in password have the same public view |
| RegisterRoute.CheckRegister | app/api/register/route.ts:9-61 | 401 unless an admin is signed in, 500 for an unreadable body, 400 for a missing field, 400 for a taken email, otherwise creation |
| RegisterRoute.RegisterKeepsKeys | app/api/register/route.ts:29-49 | a successful registration keeps user ids and emails unique |
| RegisterRoute.Post | app/api/register/route.ts:9-61 | a created user gets a fresh id, the body's name, email and role, and the hashed password, and its public view is returned with 201; a rejection changes nothing |
| UsersRoute.Listing | app/api/admin/users/route.ts:13-16 | one summary per user, each as often as in the table |
| UsersRoute.ListingSpec | app/api/admin/users/route.ts:13-16 | the listing is sorted by name and is a permutation of the users' summaries |
| UsersRoute.ListingMembers | app/api/admin/users/route.ts:13-16 | every listed row is the summary of some user |
| UsersRoute.ListingIgnoresPasswords | app/api/admin/users/route.ts:13-16 | changing one user's password does not change the listing |
| UsersRoute.GetUsers | app/api/admin/users/route.ts:8-18 | 401 unless an admin is signed in, otherwise 200 with the listing |
| UsersRoute.Delete | app/api/admin/users/route.ts:20-35 | 401 unless admin; 400 "Missing user id"; an unknown id fails and changes nothing; otherwise the user is removed and the new listing returned |
| UsersRoute.WithoutUserKeyed | app/api/admin/users/route.ts:29 | deleting a user keeps ids and emails unique |
| RegisterPage.Strength | app/admin/register/page.tsx:32-40 | the score is at most 5; it is 0 exactly when no test passes and 5 exactly when all pass |
| RegisterPage.EmptyScoresZero | app/admin/register/page.tsx:32-40 | the empty password scores 0 |
| RegisterPage.NonEmptyScoresOne | app/admin/register/page.tsx:34-38 | any non-empty password passes at least one test |
| RegisterPage.AppendNeverLowers | app/admin/register/page.tsx:34-38 | typing more characters never lowers the score |
| RegisterPage.StrengthText | app/admin/register/page.tsx:54-59 | "Weak" exactly for scores up to 2, "Fair" for 3, "Good" for 4, "Strong" for 5 |
| RegisterPage.StrengthColor | app/admin/register/page.tsx:47-52 | red exactly for scores up to 2, yellow for 3, the light orange for 4 and the dark orange from 5 |
| RegisterPage.ColorMatchesText | app/admin/register/page.tsx:47-59 | two scores get the same colour exactly when they get the same label |
| RegisterPage.StrongMeansAllTests | app/admin/register/page.tsx:32-59 | "Strong" is shown exactly when all five tests pass |
| RegisterPage.SubmitEnabled | app/admin/register/page.tsx:235 | a request in flight or an unchosen role disables the button; a chosen role enables it when idle |
| RegisterPage.SubmitNeedsChosenRole | app/admin/register/page.tsx:27 | the form as first shown cannot be sent, and an enabled button always sends "USER" or "ADMIN" |
| Upload.IsImage | app/products/popup-stands/page.tsx:64 | a file is an image exactly when its MIME type is `image/` followed by a subtype |
| Auth.IsAdmin | app/api/admin/users/route.ts:10 | no session and a "USER" role are rejected; exactly the "ADMIN" role passes |
| FlagsPage.AvailableHeights | app/products/flags/page.tsx:47-49 | rectangular flags offer four heights starting at 2m30, every other type seven starting at 2m |
| FlagsPage.HeightsDisjoint | app/products/flags/page.tsx:24-25 | the two height tables share no value |
| FlagsPage.FindBase | app/products/flags/page.tsx:382 | a base found is listed and has the requested id; when none is found no listed base has it |
| FlagsPage.BaseSummary | app/products/flags/page.tsx:382 | "None" exactly without a base; a non-empty line is the display name of the chosen base; an empty line only for a base missing from the table |
| FlagsPage.BaseSummaryNamesEveryBase | app/products/flags/page.tsx:382 | the summary names the chosen base for every base type |
| FlagsPage.FlagConfigurator.constructor | app/products/flags/page.tsx:39-44 | the initial state is a curved 2m flag with a barre, no base, no link and no image |
| FlagsPage.FlagConfigurator.ChooseType | app/products/flags/page.tsx:124-155 | choosing a type sets it and resets the height to the first height that type offers |
| FlagsPage.FlagConfigurator.ChooseHeight | app/products/flags/page.tsx:181-185 | an offered height is selected, keeping the height offered |
| FlagsPage.FlagConfigurator.ChooseBarre | app/products/flags/page.tsx:208 | the barre is set |
| FlagsPage.FlagConfigurator.ChooseBase | app/products/flags/page.tsx:237-266 | the base is set |
| FlagsPage.FlagConfigurator.SetCustomLink | app/products/flags/page.tsx:307 | the link is set |
| FlagsPage.FlagConfigurator.UploadComplete | app/products/flags/page.tsx:327-332 | a non-empty first uploaded URL becomes the image; otherwise the image is unchanged |
| FlagsPage.FlagConfigurator.AddToCart | app/products/flags/page.tsx:59-79 | without a session nothing changes and the user is redirected; otherwise the configured item is added to the cart and the signed-in user's slot holds the new cart |
| FlagsPage.OrNullValue | app/products/flags/page.tsx:71-74 | a missing base or image is written as `null`, never left undefined |
| FlagsPage.OptionsRecord | app/products/flags/page.tsx:68-75 | the flag's options are a plain object, and none of its values is undefined when base and image are defined |
| FlagsPage.OptionsRecordReads | app/products/flags/page.tsx:68-75 | type, height, base, barre and link are read back under their keys |
| FlagsPage.FlagConfigurator.ProductId | app/products/flags/page.tsx:64 | the product id starts with `flag-`, the type and the height |
| FlagsPage.FlagConfigurator.Options | app/products/flags/page.tsx:68-75 | the options are a plain object without undefined values, reading back the chosen type, height, barre, link, and the base or `null` |
| FlagsPage.FlagConfigurator.Item | app/products/flags/page.tsx:63-76 | one flag with this product id and these options, pictured by a non-empty upload URL or else `/flag.png` |
| FlagsPage.ItemSpec | app/products/flags/page.tsx:63-76 | the item's options are already canonical, so serialization keeps the chosen height and link |
| FlagsPage.LinkSeparatesEntries | app/products/flags/page.tsx:64-75 | two flags differing only in link share a product id but make two cart entries |
| PopupStandsPage.OfferedSizes | app/products/popup-stands/page.tsx:26-36 | flat stands offer 1/3 to 4/3 and curved stands 3/3 and 4/3, so the sizes a type change resets to are offered |
| PopupStandsPage.FindSizeOr | app/products/popup-stands/page.tsx:58 | a size with the requested id is returned when listed, otherwise the fallback |
| PopupStandsPage.CurrentSizeOf | app/products/popup-stands/page.tsx:56-59 | the size used is one the type offers: the chosen one if offered, else the type's first |
| PopupStandsPage.AvailableSizes | app/products/popup-stands/page.tsx:26-36 | four sizes starting at 1/3 for a flat stand, two starting at 3/3 for a curved one |
| PopupStandsPage.ProductImageUrl | app/products/popup-stands/page.tsx:52-54 | the URL starts with the fixed picture and query, then the type and `+`, and is as long as that plus the size id |
| PopupStandsPage.SlashInMiddle | app/products/popup-stands/page.tsx:53 | a three-character id with `/` in the middle is spelled with `-` there, and no `/` is left |
| PopupStandsPage.OfferedIdShape | app/products/popup-stands/page.tsx:26-36 | every offered size id is three characters with a single `/` in the middle |
| PopupStandsPage.ImageUrlSizeHasNoSlash | app/products/popup-stands/page.tsx:52-54 | for an offered size `n/3` the URL ends in the type, `+` and `n-3`: the `/` becomes `-` and none is left |
| PopupStandsPage.PopupConfigurator.constructor | app/products/popup-stands/page.tsx:41-45 | the initial state is a flat 1/3 stand with no link and no image |
| PopupStandsPage.PopupConfigurator.ChooseType | app/products/popup-stands/page.tsx:128-151 | choosing a type resets the size to 1/3 for flat and 3/3 for curved stands, both offered |
| PopupStandsPage.PopupConfigurator.ChooseSize | app/products/popup-stands/page.tsx:178 | an offered size is selected |
| PopupStandsPage.PopupConfigurator.SetCustomLink | app/products/popup-stands/page.tsx:262 | the link is set |
| PopupStandsPage.PopupConfigurator.CurrentSize | app/products/popup-stands/page.tsx:56-59 | the size used is one the current type offers, and it is the selected size |
| PopupStandsPage.PopupConfigurator.HandleImageUpload | app/products/popup-stands/page.tsx:61-72 | an image file is kept with its preview URL; a non-image file or no file changes nothing |
| PopupStandsPage.PopupConfigurator.Options | app/products/popup-stands/page.tsx:83-88 | the options are a plain object reading back type, size and link; `customImage` is undefined exactly without a file |
| PopupStandsPage.PopupConfigurator.Item | app/products/popup-stands/page.tsx:78-89 | one stand with the fixed picture, an id naming type and size, and these options |
| PopupStandsPage.PopupConfigurator.AddToCart | app/products/popup-stands/page.tsx:74-92 | without a session nothing changes and the user is redirected; otherwise the configured stand is added and the signed-in user's slot holds the new cart |
| PopupStandsPage.ItemSerialization | app/products/popup-stands/page.tsx:78-89 | quantity is 1 and the image fixed; without a file `customImage` is absent from the serialized options, with one it carries the file name |
| CounterPage.FindSpecOr | app/products/Counter/page.tsx:57 | a spec of the requested type is returned when listed, otherwise the fallback |
| CounterPage.CurrentCounter | app/products/Counter/page.tsx:56-58 | the counter shown is a listed spec of the chosen type |
| CounterPage.CounterConfigurator.constructor | app/products/Counter/page.tsx:49-53 | the initial state is a square counter without drape, link or image |
| CounterPage.CounterConfigurator.ChooseType | app/products/Counter/page.tsx:129 | the type is set |
| CounterPage.CounterConfigurator.SetIncludeDrap | app/products/Counter/page.tsx:179-205 | the drape choice is set |
| CounterPage.CounterConfigurator.SetCustomLink | app/products/Counter/page.tsx:280 | the link is set |
| CounterPage.CounterConfigurator.HandleImageUpload | app/products/Counter/page.tsx:60-71 | an image file is kept with its preview URL; anything else changes nothing |
| CounterPage.CounterConfigurator.ProductId | app/products/Counter/page.tsx:78 | the product id starts with `counter-` and the type, and ends with `drap` or `no-drap` |
| CounterPage.CounterConfigurator.Name | app/products/Counter/page.tsx:79 | the name starts with `Counter` and the type |
| CounterPage.CounterConfigurator.Options | app/products/Counter/page.tsx:82-87 | the options are a plain object reading back type, drape flag and link; `customImage` is undefined exactly without a file |
| CounterPage.CounterConfigurator.Item | app/products/Counter/page.tsx:77-88 | one counter with the fixed picture and this id, name and options |
| CounterPage.CounterConfigurator.AddToCart | app/products/Counter/page.tsx:73-91 | without a session nothing changes and the user is redirected; otherwise the configured counter is added and the signed-in user's slot holds the new cart |
| CounterPage.NameMentionsDrap | app/products/Counter/page.tsx:79 | the item name ends in " + Drap" exactly when the drape is included |
| CounterPage.DrapSeparatesEntries | app/products/Counter/page.tsx:78 | counters with and without drape have different product ids and so different cart entries |
| CounterPage.NoImageKey | app/products/Counter/page.tsx:82-87 | without a file the serialized options are exactly type, drap and customLink |

## Left out

- Rendering (JSX, toasts, alerts, progress-bar width) is not modelled; only the state the pages keep and what they send.
- `useCart` throwing outside its provider is not modelled; every configurator is given its provider.
- React effect timing is not modelled. When the session changes, the load effect is declared first and reads the new user's slot before the persist effect runs. In that same commit the persist effect still sees the old cart and writes it into the new user's slot. The next render persists the loaded cart and overwrites that write. The model loads and then persists the loaded cart, so the transient write is not represented.
- A session with no `user` object is treated as no session.
- Prices are not part of the cart item.
- The text rendering of JSON is represented by its canonical form, taken to be injective.
- Json.KeyOrderMatters: keys that are array indices (such as "0" or "12"), which `JSON.stringify` lists first in numeric order, are not modelled; the lemma and the canonical form cover plain keys only.
- Json.UndefinedKeyInvisible: duplicate keys cannot occur in a JavaScript object, so the lemma is stated for records with distinct keys only.
- PopupStandsPage.ProductImageUrl: the page defines `getProductImageUrl` (app/products/popup-stands/page.tsx:52) but never calls it; the model keeps it only for the URL it would build.
- Prisma type validation and foreign keys are not modelled, for example deleting a user who still has orders.
- Order snapshots and the admin `OrderItem` table are kept as separate tables. The admin routes never see the items nested in orders.
- OrderItemsRoute.Post: an `id` supplied in the body is ignored; a fresh id is always chosen.
- Malformed JSON bodies are modelled only for registration. The other routes receive already decoded bodies.
- RegisterRoute.Post: bcrypt is a parameter `hash`. The random salt is folded into it.
- UsersRoute.ListingSpec: names are ordered by code point, not by the database collation.
- RegisterPage.Strength: the length test counts characters, not UTF-16 code units.
- The register page's submit handler (fetch, redirect) and its field bindings are not modelled. `RegisterPage.SubmitEnabled` models only the button guard.
- `URL.createObjectURL` and the upload service are parameters. Image preview URLs and uploaded URLs are given, not produced.
- Navigation (`router.push`, the delayed redirect after checkout) is reduced to a returned flag or left out.
- The login page, the admin dashboard pages, the database seed and the uploadthing route are not part of this model.
