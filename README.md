# Cart session bookkeeping of the events service

The events service (`server.js`) keeps a shopper's cart session in Redis under four keys:

- the cart summary (`cartSessionId`);
- the line-item list (`cartItemSessionId`);
- the item count (`cartItemCountSessionId`);
- the checkout/shipping record (`checkout:<sessionId>`).

Two stream listeners change these keys:

- `addToCart` asks the commerce library to add an item, merges the response into the stored cart, updates the stored line item, writes the count and resets the checkout record's shipping cache. It publishes one event on the session's channel: a success, or an error carrying `err.message`. It publishes none when the library's response has no session token.
- `removeCart` asks the library to remove a line. It then either zeroes the session (when the library reports an empty cart) or overwrites the cart summary with the new totals and coupons, and resets the checkout record. It publishes nothing and has no `catch`, so a failure settles as a rejected promise.

The model has six modules:

- `JsValues`: the JavaScript values the code handles, truthiness, property reads that throw on null/undefined (with `length` of strings and arrays), and `JSON.parse(JSON.stringify(v))`.
- `JsNumbers`: the number conversion behind `ci.price > 0` (section 7.2.13 of ECMA-262 and its StringToNumber, section 7.1.4.1.1), computed as a sign: numeric text, booleans and one-element arrays convert; other text is NaN.
- `CartHelpers`: the pure helpers. These are coupon formatting, the token expiry (`getParsedJwt`/`getExpiresIn`), the composition flags of `resetShippingCharges`, and the pieces of the line-item upsert.
- `SessionStore`: the store and the store helpers. The store is a `class Store` whose field `entries` maps keys to a JSON document and an optional TTL. Each store helper is a method that updates `entries` in place. Each method is proved equal to an `…Effect` function of the old entries.
- `Listeners`: the two listeners. Each is a method over a `Store`, proved equal to a transition function (`AddToCartEffect`, `RemoveCartEffect`). The lemmas state what each listener leaves in the store and publishes.
- `Wrappers`: `Option`.

These are parameters of the model:

- The commerce library is `cart: Call -> Reply`: each call resolves with a value or rejects.
- `Date.now()` is `nowMs`.
- `JSON.parse(atob(segment))` followed by reading a numeric `exp` is `decode`.

### Behaviour of the code worth knowing

- **No per-session lock.** Nothing serialises two listener runs for the same session; the model runs each listener as one sequential transition.
- **No atomic multi-key writes.** The keys are written one command at a time. A failure partway keeps the earlier writes; for example, "Invalid cart item" is raised after the cart key has been rewritten (`AddInvalidItemKeepsCartWrite`).
- **Two flags only.** `resetShippingCharges` computes only `hasProducts` and `hasPricedClass`, and writes no tax value. A flag already in the stored checkout record wins over the computed one. `ci.price > 0` converts the price, so the text `"5"` counts as a positive price.
- **Items are updated, not appended.** `addToCart` updates an item that is already in the stored list and fails with "Invalid cart item" when there is none. For a `VARIABLE` item it reads the undeclared `idType`, so such an add never succeeds.
- **A response without a session token** publishes nothing and writes nothing.
- **`removeCart` publishes no events**, and its failures are plain rejections. It does not filter the removed line out of the stored list. It takes the TTL from the request's token. The payment intent it passes to the library is read off the unparsed stored string, so it is always `undefined`.

## Model

| member | source | states |
|---|---|---|
| JsValues.Get | server.js:334 | reading a property throws exactly when the base is null or undefined, with a "Cannot read properties" fault naming the base and the property; otherwise it gives the own property, `length` of a string or array, or undefined |
| JsValues.Utf16Length | server.js:209 | `length` of a string counts UTF-16 code units: between one and two per character, exactly one each iff no character lies outside the Basic Multilingual Plane |
| JsValues.Serialized | server.js:193 | a stored document is JSON (no undefined inside); an object keeps exactly its properties that do not hold undefined, each holding its value serialized; an array keeps its length |
| JsValues.SerializedElems | server.js:247 | a stored array keeps its length, turns undefined slots into null and stores every other element serialized |
| JsValues.SerializedKeepsJson | server.js:50-56 | a JSON document read back from the store is the document that was written (store round trip) |
| JsValues.SerializedKeepsField | server.js:193 | a property holding a JSON document survives storage unchanged |
| JsValues.SerializedIdempotent | server.js:193 | writing what was read back stores the same document again |
| CartHelpers.MapCoupons | server.js:301-304 | succeeds iff no coupon is null or undefined; then element i is `{code, amount}` of coupon i, same length; otherwise it throws at the first nullish coupon |
| CartHelpers.FormattedCoupons | server.js:300-305 | undefined gives the empty list (the default parameter); any other non-array throws, with null failing on reading `map`; an array gives one `{code: c.code, amount: c.discountAmount}` per coupon, in order, iff none is nullish |
| CartHelpers.BeforeDot | server.js:114 | the part before the first '.' is a prefix of the token, holds no '.', and is either the whole token or followed by a '.' |
| CartHelpers.AfterDot | server.js:114 | there is a rest iff the token holds a '.', and the token is the head, a '.' and the rest |
| CartHelpers.MiddleSegment | server.js:114 | there is a second segment iff the token holds a '.'; it holds no '.', follows the first segment and its '.' at the start of the token, and runs up to the next '.' or the end |
| CartHelpers.MiddleSegmentOfToken | server.js:114 | for a token `header.payload.signature`, `split(".")[1]` is the payload |
| CartHelpers.MiddleSegmentOfTwoParts | server.js:114 | for a token `head.rest` with a single '.', `split(".")[1]` is the whole rest |
| CartHelpers.NoDotNoSegment | server.js:114 | a token without '.' has no second segment, so it carries no claims |
| CartHelpers.ParsedJwtNeedsSegment | server.js:112-118 | a token that is no string, or has no '.', gives undefined (the try block's catch); any claims are the decoding of the second segment |
| CartHelpers.ParsedJwtOfToken | server.js:112-118 | the claims of a token `header.payload.signature` are exactly what its payload decodes to |
| CartHelpers.ExpiresIn | server.js:120-129 | succeeds iff the token is a string whose claims decode; the result is `exp` minus the current whole second; without claims, reading `exp` of undefined throws |
| CartHelpers.ExpiredTokenTtlNotClamped | server.js:127-128 | a token whose `exp` has passed gives a TTL of zero or less: nothing clamps it |
| CartHelpers.TtlPropagation | server.js:127-128 | a token expiring 120 s after the current whole second gives a TTL of exactly 120 |
| CartHelpers.CountKept | server.js:96-100 | `filter(...).length` succeeds iff the callback succeeds on every item; it is positive iff some item is kept, and at most the list length |
| CartHelpers.CompositionFlags | server.js:96-100 | succeeds iff the items form an array with no null or undefined item; `hasProducts` iff some item is not an `EVENTTICKET`; `hasPricedClass` iff some `EVENTTICKET` has a price that `> 0` holds for after conversion (`IsPositive`); a non-array throws on `filter` |
| CartHelpers.FlagsOfSimpleAndFreeTicket | server.js:96-100 | a SIMPLE item plus a free EVENTTICKET gives `hasProducts` true and `hasPricedClass` false |
| CartHelpers.FlagsOfEmptyList | server.js:96-100 | an empty list has neither flag |
| CartHelpers.FlagsOfOnePricedTicket | server.js:98-100 | a list of one `EVENTTICKET` whose price converts above zero has a priced class and no products |
| CartHelpers.FlagsOfTextPricedTicket | server.js:98-100 | a ticket priced with the text "5" is a priced class |
| JsNumbers.TrimStart | server.js:99 | the conversion drops exactly the leading white space and line terminators: what is dropped is all blank, what remains is a suffix that does not start with one |
| JsNumbers.TrimEnd | server.js:99 | likewise for the trailing white space: what remains is a prefix that does not end with a blank |
| JsNumbers.DigitsArePositive | server.js:99 | a run of decimal digits with a nonzero digit converts above zero |
| JsNumbers.FractionIsPositive | server.js:99 | digits, a '.' and digits, with a nonzero digit before the '.', convert above zero |
| JsNumbers.LeadingBlankIgnored | server.js:99 | a leading blank never changes whether a text converts above zero |
| JsNumbers.BlankIsNotPositive | server.js:99 | text of blanks only (the empty text included) converts to 0, so it is no positive price |
| JsNumbers.NonNumericStartIsNotPositive | server.js:99 | trimmed text starting with anything but a digit, '.', '+' or the 'I' of `Infinity` is negative or NaN, so no positive price |
| JsNumbers.NegativeIsNotPositive | server.js:99 | text whose first non-blank character is '-' is no positive price |
| JsNumbers.NumericTextPrices | server.js:99 | "5", ["3"] and [5] are positive prices |
| JsNumbers.DecimalTextPrice | server.js:99 | "12.50" is a positive price |
| JsNumbers.BlankTextIsNotPositive | server.js:99 | "" and " " are not positive prices |
| JsNumbers.ZeroTextIsNotPositive | server.js:99 | "0" is not a positive price |
| JsNumbers.OtherNonPositivePrices | server.js:99 | "-5", [], [1, 2] and null are not positive prices |
| JsNumbers.CurrencyTextPriceIsNotPositive | server.js:99 | "$5.00" converts to NaN, so it is not a positive price |
| CartHelpers.FindById | server.js:225 | `find((ci) => ci.id === dbId)`: the position found is the first item with the id, with no item before it nullish or matching; none found means no item matches; a throw comes from the first nullish item before any match |
| CartHelpers.SubsequenceMembers | server.js:240 | everything the filter keeps was in the list |
| CartHelpers.WithoutId | server.js:240 | `filter((ci) => ci.id !== dbId)` succeeds iff no item is nullish, and otherwise throws at the first nullish item; the result is a subsequence of the items (order kept) holding exactly the items without the id |
| CartHelpers.WithoutIdCounts | server.js:240 | the filter keeps each item without the id exactly as often as the list holds it, and no copy of an item with the id |
| CartHelpers.NewCartItem | server.js:198-212 | succeeds iff the response carries a line item; the new item has exactly the nine library fields, copied from it, plus the requested variation |
| CartHelpers.NewCartItemOfArray | server.js:200-212 | a library item that is an array still builds a line item, whose `length` is the array's length and whose other library fields are undefined |
| CartHelpers.NewCartItemHasNoId | server.js:200-212 | the new line item carries no `id`, so merging keeps the stored item's id |
| CartHelpers.AssignedFields | server.js:232 | `Object.assign({}, cached, incoming)` has the union of the keys; incoming values win and the cached values fill the rest |
| CartHelpers.StoredCartFields | server.js:176-196 | the stored new cart has the session id and the request's token, has the response's totals and applied coupons exactly when defined, each stored serialized, keeps every other field of the old cart, and has no other field |
| CartHelpers.NewCartFields | server.js:176-188 | before storage, the new cart has the old cart's keys plus the overlay; the session id and the request's token win over the response's token; the totals and coupons come from the response |
| CartHelpers.StoredCheckoutFields | server.js:102-109 | the reset record is JSON; it has an empty, unfetched shipping cache; each flag is the stored one where the record has it, else the computed one; every other stored field is kept |
| CartHelpers.CheckoutRecordKeys | server.js:102-109 | the reset record's keys are the stored record's keys plus both flags and the three shipping-cache fields |
| CartHelpers.CheckoutRecordIsJson | server.js:102-109 | a reset of a JSON record is JSON |
| CartHelpers.ZeroCartIsJson | server.js:287-294 | the zeroed cart is stored as it is |
| SessionStore.ResetShippingChargesEffect | server.js:91-110 | only the checkout key can change; the reset succeeds iff the flags can be computed, and then writes the record with no TTL; on failure nothing changes and the fault is the flags' fault |
| SessionStore.ResetKeepsStoredFlags | server.js:102-109 | after a successful reset, the checkout key holds the record `StoredCheckoutFields` describes for the record that was stored |
| SessionStore.ClearCartSessionDataEffect | server.js:279-298 | only the cart, items and count keys can change; it succeeds iff the token gives an expiry; then the items and count keys are gone and the cart key holds the zeroed cart with that TTL; otherwise nothing changes |
| SessionStore.SetCartSessionDataEffect | server.js:307-311 | only the given key can change; it succeeds iff the token gives an expiry, and then the key holds the serialized payload with that TTL; otherwise nothing changes |
| SessionStore.Store.Get | server.js:51 | the document under the key, or none iff the key is absent |
| SessionStore.Store.Set | server.js:191-196 | the key is overwritten with the value and TTL (no TTL for SET without EX); every other key is unchanged; the store stays JSON |
| SessionStore.Store.Del | server.js:172 | the key is removed and nothing else changes |
| SessionStore.Store.GetCart | server.js:50-56 | the stored document, or null when the key is absent |
| SessionStore.Store.GetCartItems | server.js:67-74 | the stored document, or an empty list when the key is absent |
| SessionStore.Store.GetCheckoutSession | server.js:76-89 | the document under `checkout:<sessionId>`, or null |
| SessionStore.Store.ResetShippingCharges | server.js:91-110 | the new entries and outcome are those of `ResetShippingChargesEffect` on the old entries |
| SessionStore.Store.ClearCartSessionData | server.js:279-298 | the new entries and outcome are those of `ClearCartSessionDataEffect` on the old entries |
| SessionStore.Store.SetCartSessionData | server.js:307-311 | the new entries and outcome are those of `SetCartSessionDataEffect` on the old entries |
| Listeners.AddCall | server.js:139-164 | the call is made iff the requested item is not nullish (else reading `variation` throws); it is the variable-product call iff the variation is truthy, else the simple-product call |
| Listeners.DbIdOfCall | server.js:215-217 | the id the upsert looks for is the `databaseId` sent with a simple-product call, but the `databaseId` of the variation sent with a variable-product call |
| Listeners.CachedItem | server.js:219-226 | a non-array list throws on `find`; a found item is the first stored item with the id, with no nullish or matching item before it; nothing found means no item has the id; for a VARIABLE item the lookup gets through only when the list is empty, with nothing found |
| Listeners.OtherItems | server.js:234-241 | for a non-VARIABLE item it is `WithoutId`; for a VARIABLE item and a non-empty list it throws |
| Listeners.AddToCartEffect | server.js:131-277 | only the session's four keys can change; no event is published iff the library's response has no session token, and then nothing changes; every event goes to the session's channel |
| Listeners.UpsertItemEffect | server.js:198-267 | only the session's four keys can change; exactly one event is published, on the session's channel |
| Listeners.WriteItemsEffect | server.js:243-267 | only the session's four keys can change; exactly one event is published, on the session's channel |
| Listeners.AddToCart | server.js:131-277 | the store after the listener, and the event it publishes, are those of `AddToCartEffect` on the old store; the store stays JSON |
| Listeners.UpsertItem | server.js:198-267 | the new store and event are those of `UpsertItemEffect` |
| Listeners.WriteItems | server.js:243-267 | the new store and event are those of `WriteItemsEffect` |
| Listeners.AddRejectsChangedVersion | server.js:168-174 | with a session token and a stored cart of another version, the cart key is deleted, nothing else changes, and the one event is the version error |
| Listeners.AddReachesUpsert | server.js:168-196 | a run ending in success or "Invalid cart item" had a token, a matching version and an expiry, and continued from the store with the cart key rewritten |
| Listeners.UpsertSuccessPath | server.js:198-243 | a successful upsert had a line item from the library and a non-VARIABLE item; a truthy cached item was found and the filter and the flags succeeded; the writes are of the filtered list plus the merged item |
| Listeners.AddVariableItemNeverSucceeds | server.js:220-241 | an add of a VARIABLE item never publishes the success event |
| Listeners.WriteItemsStores | server.js:245-259 | after the closing writes succeed: the items key holds the new list and the count key its length, both with the token's TTL; the checkout key holds the reset record with no TTL; the cart key is untouched |
| Listeners.UpsertStoresMergedList | server.js:214-257 | after a successful upsert, the stored list is the old items without the id, in their order and each as often as before, then one merged item with the id; the count is the list length |
| Listeners.StoredListKeepsOldItems | server.js:243-247 | storing the built list keeps the old JSON items as they are and stores the merged item serialized |
| Listeners.MergedItemKeepsId | server.js:232 | the merged item, once stored, still has the stored item's id |
| Listeners.MergedListStored | server.js:232-257 | the list the upsert writes has the shape of `UpsertedListStored` |
| Listeners.AddSuccessUpsertsLineItem | server.js:214-257 | after a successful add, the stored list is the old items without the id, in their order and each as often as before, then the first stored item with the id merged with the library's line item; the count key holds the length; both carry the token's expiry |
| Listeners.WrittenCartKeepsOthers | server.js:191-196 | writing the cart key keeps the store JSON and leaves the items and checkout keys unchanged |
| Listeners.UpsertResetsCheckoutFromOldItems | server.js:259 | after a successful upsert the checkout record is reset with flags computed from the item list as it was before the upsert, and the cart key is untouched |
| Listeners.AddSuccessWritesCartAndCheckout | server.js:176-259 | after a successful add, the cart key holds the old cart overlaid with the response's totals and coupons, the session id and the request's token, with the token's TTL; the checkout record is reset from the old item list |
| Listeners.UpsertInvalidItemWritesNothing | server.js:225-229 | "Invalid cart item" leaves the store as it was and names the looked-up id; the list was an array whose first matching item is falsy (a VARIABLE item: an empty list) |
| Listeners.AddInvalidItemKeepsCartWrite | server.js:191-229 | an add failing with "Invalid cart item" leaves the rewritten cart key and every other key unchanged; the first stored item with the id, if any, is falsy (a VARIABLE item: the list was empty) |
| Listeners.UpsertMissingItemIsInvalid | server.js:225-229 | when no stored item has the id, the upsert publishes "Invalid cart item" and writes nothing |
| Listeners.AddMissingItemIsInvalid | server.js:225-229 | when no stored item has the id, an add that got a token, a matching version and an expiry ends with "Invalid cart item" after the cart write |
| Listeners.RemoveCartEffect | server.js:327-369 | only the session's four keys can change |
| Listeners.RemoveNeedsStoredCart | server.js:336-342 | without a stored cart the run rejects on reading `paymentIntentId` of null and changes nothing |
| Listeners.RemoveFalsyResponseWritesNothing | server.js:346 | a falsy library response resolves the run and changes nothing |
| Listeners.RemoveClearsSession | server.js:347-356 | an empty-cart response zeroes the cart key with the token's TTL and deletes the items and count keys; the run resolves iff the library's clearCart resolves and the flags of the old items compute; then the checkout record is reset from those items |
| Listeners.RemainingCartFields | server.js:358-364 | the stored remaining cart has the coupons and at most the two totals besides |
| Listeners.RemoveOverwritePath | server.js:357-367 | the overwrite branch is the cart write followed, when it succeeds, by the checkout reset from the items read before |
| Listeners.RemoveOverwritesCart | server.js:357-365 | otherwise the cart key is wholly replaced by the formatted coupons and the response's totals with the token's TTL; the items and count keys are unchanged; the run resolves iff the flags of the old items compute |
| Listeners.ClearIgnoresCartValue | server.js:285-297 | clearing the session does not depend on what the cart key held |
| Listeners.SetIgnoresCartValue | server.js:307-311 | overwriting the cart key does not depend on what it held |
| Listeners.RemoveIgnoresStoredCart | server.js:336-344 | the stored cart's contents never change the outcome or the other keys; only its presence matters |
| Listeners.RemoveCart | server.js:327-369 | the store after the listener, and how it settles, are those of `RemoveCartEffect` on the old store; the store stays JSON |

## Left out

- HTTP routes, server-sent events and the `channel` fan-out to clients: they are transport. The model records the event each listener publishes.
- The Redis connection and its failures: each store command succeeds. Keys expiring while a listener runs are not modelled; TTLs are recorded as given, not counted down.
- A Redis rejection of `SET … EX` with a TTL of zero or less (an expired token) is not modelled: the write is recorded with that TTL (`ExpiredTokenTtlNotClamped` shows such a TTL arises). With such a token the real first `SET … EX` of addToCart rejects, so the program publishes an Error event where the model goes on and can publish success.
- The count key is stored as the number itself; Redis would store its decimal text.
- The commerce library (`Cart`): it is the parameter `cart`, and what it does upstream is not modelled.
- The `clearCart` listener (server.js:313-325): it only calls the library and logs a failure. It reads and writes no session key and publishes nothing.
- In `removeCart`, the library's `clearCart` call is started before the session is cleared and is not awaited alone. The model takes its outcome as given and lets a failed clear of the session win, as `Promise.all` does when the array itself throws.
- Concurrency and interleaving of listeners: each listener runs as one uninterrupted transition.
- `console` output.
- Base64 and JSON decoding of the token: `decode` stands for them. A payload without a numeric integer `exp` is treated like one that fails to decode. The code would then compute `NaN`, or throw on a `null` payload, rather than fail on reading `exp` of undefined.
- Numbers are reals, with no NaN, infinities or floating-point rounding. For `ci.price > 0` only the sign of the converted price is computed (`JsNumbers.IsPositive`); text too long or too small for a double (underflowing to 0, overflowing to Infinity) is taken at its exact value.
- Objects are maps: property order, prototypes and inherited properties are not modelled. The only built-in property read is `length` of a string or an array; no other name the code reads is built into strings, numbers, booleans or arrays.
- The session id and the three key names of a request are strings. A missing `sessionId` would make the checkout key `checkout:undefined` and the channel `undefined`, and a missing key name would make Redis reject the command; neither is modelled.
- Spreading a string or an array into an object, and `Object.assign({}, cached, incoming)` (server.js:232) with a stored line item that is a string or an array, give no fields here (`CartHelpers.Assigned`); JavaScript would copy their indexed characters or elements as fields "0", "1", …. Stored carts and checkout records are objects or null.
- `===` between objects or arrays is always false: every compared object comes from a fresh parse.
- The optional chain `ci.variation?.databaseId` in the VARIABLE branches is not modelled: the undeclared `idType` read before it always throws.
- The text of error messages: each thrown error is a `Fault` value that names what the message would say.
