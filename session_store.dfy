/**
 * The key-value store the session bookkeeping writes to, and the store
 * operations of server.js built on it: getCart, getCartItems,
 * getCheckoutSession, resetShippingCharges, clearCartSessionData and
 * setCartSessionData. Each key holds a JSON document and an optional
 * time-to-live in seconds, recorded as given.
 */
module SessionStore {
  import opened Wrappers
  import opened JsValues
  import opened CartHelpers

  datatype Entry = Entry(value: Js, ttl: Option<int>)

  type Entries = map<string, Entry>

  /** How an asynchronous store operation settles: resolved, or rejected with a fault. */
  datatype Settled = Done | Failed(fault: Fault)

  /** The store after an operation, and how the operation settled. */
  datatype Effect = Effect(entries: Entries, settled: Settled)

  /** Every key holds a document JSON can carry. */
  ghost predicate AllJson(e: Entries) {
    forall k :: k in e ==> IsJson(e[k].value)
  }

  /** Two stores that agree outside `inner` agree outside any larger set of keys. */
  lemma FrameWidens(a: Entries, b: Entries, inner: set<string>, outer: set<string>)
    requires a - inner == b - inner && inner <= outer
    ensures a - outer == b - outer
  {
    forall k ensures k in a - outer <==> k in b - outer {
      if k !in outer {
        assert k in a - inner <==> k in b - inner;
      }
    }
    forall k | k in a - outer ensures (a - outer)[k] == (b - outer)[k] {
      assert (a - inner)[k] == (b - inner)[k];
    }
  }

  /** Two stores that agree outside `inner` agree at any key outside it. */
  lemma FrameKeeps(a: Entries, b: Entries, inner: set<string>, k: string)
    requires a - inner == b - inner && k !in inner
    ensures k in a <==> k in b
    ensures k in a ==> a[k] == b[k]
  {
    assert k in a <==> k in a - inner;
    assert k in b <==> k in b - inner;
    if k in a {
      assert (a - inner)[k] == (b - inner)[k];
    }
  }

  /** The key of the checkout/shipping record of a session (server.js:77). */
  function CheckoutKey(sessionId: string): string {
    "checkout:" + sessionId
  }

  /** What getCart and getCheckoutSession read: the parsed document, or null. */
  function DocumentAt(e: Entries, key: string): Js {
    if key in e then e[key].value else Null
  }

  /** What getCartItems reads: the parsed document, or an empty list. */
  function ItemsAt(e: Entries, key: string): Js {
    if key in e then e[key].value else Arr([])
  }

  /**
   * resetShippingCharges(sessionId, cartItems) (server.js:91-110): reads the
   * checkout record, computes the flags from the given items and writes the
   * record back with no expiry. Only the checkout key can change.
   */
  function ResetShippingChargesEffect(e: Entries, sessionId: string, cartItems: Js): (r: Effect)
    ensures r.entries - {CheckoutKey(sessionId)} == e - {CheckoutKey(sessionId)}
    ensures r.settled.Done? <==> CompositionFlags(cartItems).Ok?
    ensures r.settled.Failed? ==> r.entries == e && r.settled.fault == CompositionFlags(cartItems).fault
    ensures r.settled.Done? ==>
      && CheckoutKey(sessionId) in r.entries
      && r.entries[CheckoutKey(sessionId)].ttl == None
  {
    var checkout := DocumentAt(e, CheckoutKey(sessionId));
    match CompositionFlags(cartItems)
    case Throw(f) => Effect(e, Failed(f))
    case Ok(flags) => Effect(e[CheckoutKey(sessionId) := Entry(Serialized(CheckoutRecord(flags, checkout)), None)], Done)
  }

  /**
   * With a JSON store, the checkout record after a reset has an emptied, unfetched
   * shipping cache, keeps the flags it already had and takes the computed ones only
   * where it had none (spread order), and keeps its other fields.
   */
  lemma ResetKeepsStoredFlags(e: Entries, sessionId: string, cartItems: Js)
    requires AllJson(e)
    requires CompositionFlags(cartItems).Ok?
    ensures var r := ResetShippingChargesEffect(e, sessionId, cartItems);
      var old_ := OwnFields(DocumentAt(e, CheckoutKey(sessionId)));
      var flags := CompositionFlags(cartItems).value;
      var c := r.entries[CheckoutKey(sessionId)].value;
      && c.Obj?
      && c.fields.Keys == old_.Keys + {"hasProducts", "hasPricedClass"} + ShippingCacheFields
      && c.fields["shippingCharges"] == Arr([])
      && c.fields["shippingChargesTimeStamp"] == Null
      && c.fields["shippingChargeFetchSuccess"] == Bool(false)
      && c.fields["hasProducts"] == (if "hasProducts" in old_ then old_["hasProducts"] else Bool(flags.hasProducts))
      && c.fields["hasPricedClass"] == (if "hasPricedClass" in old_ then old_["hasPricedClass"] else Bool(flags.hasPricedClass))
      && (forall k :: k in old_ && k !in ShippingCacheFields ==> c.fields[k] == old_[k])
  {
    var checkout := DocumentAt(e, CheckoutKey(sessionId));
    var flags := CompositionFlags(cartItems).value;
    var record := CheckoutRecord(flags, checkout);
    assert IsJson(checkout);
    StoredCheckoutFields(flags, checkout);
    SerializedKeepsJson(record);
    assert ResetShippingChargesEffect(e, sessionId, cartItems).entries[CheckoutKey(sessionId)].value == record;
  }

  /**
   * clearCartSessionData (server.js:279-298): the expiry is computed first, then
   * the cart key gets the zeroed cart and the items and count keys are deleted,
   * in that order.
   */
  function ClearCartSessionDataEffect(e: Entries, cartKey: string, wooSessionId: Js, itemsKey: string,
                                      countKey: string, decode: string -> Option<Claims>, nowMs: int): (r: Effect)
    ensures r.entries - {cartKey, itemsKey, countKey} == e - {cartKey, itemsKey, countKey}
    ensures r.settled.Done? <==> ExpiresIn(wooSessionId, decode, nowMs).Ok?
    ensures r.settled.Failed? ==> r.entries == e && r.settled.fault == CannotReadProperty(Undefined, "exp")
    ensures r.settled.Done? ==> itemsKey !in r.entries && countKey !in r.entries
    ensures r.settled.Done? && cartKey != itemsKey && cartKey != countKey ==>
      cartKey in r.entries && r.entries[cartKey] == Entry(ZeroCart, Some(ExpiresIn(wooSessionId, decode, nowMs).value))
  {
    match ExpiresIn(wooSessionId, decode, nowMs)
    case Throw(f) => Effect(e, Failed(f))
    case Ok(ttl) =>
      ZeroCartIsJson();
      Effect(e[cartKey := Entry(Serialized(ZeroCart), Some(ttl))] - {itemsKey} - {countKey}, Done)
  }

  /** setCartSessionData (server.js:307-311): the expiry is computed first, then the key is overwritten. */
  function SetCartSessionDataEffect(e: Entries, key: string, wooSessionId: Js, payload: Js,
                                    decode: string -> Option<Claims>, nowMs: int): (r: Effect)
    requires !payload.Undefined?
    ensures r.entries - {key} == e - {key}
    ensures r.settled.Done? <==> ExpiresIn(wooSessionId, decode, nowMs).Ok?
    ensures r.settled.Failed? ==> r.entries == e && r.settled.fault == CannotReadProperty(Undefined, "exp")
    ensures r.settled.Done? ==>
      key in r.entries && r.entries[key] == Entry(Serialized(payload), Some(ExpiresIn(wooSessionId, decode, nowMs).value))
  {
    match ExpiresIn(wooSessionId, decode, nowMs)
    case Throw(f) => Effect(e, Failed(f))
    case Ok(ttl) => Effect(e[key := Entry(Serialized(payload), Some(ttl))], Done)
  }

  /** The store: a map from keys to documents with optional expiry, updated in place. */
  class Store {
    var entries: Entries

    ghost predicate Valid()
      reads this
    {
      AllJson(entries)
    }

    constructor ()
      ensures Valid() && entries == map[]
    {
      entries := map[];
    }

    /** `redis.get(key)`, already parsed. */
    method Get(key: string) returns (doc: Option<Js>)
      ensures doc.Some? <==> key in entries
      ensures doc.Some? ==> doc.value == entries[key].value
    {
      doc := if key in entries then Some(entries[key].value) else None;
    }

    /** `redis.set(key, value)`, with `"EX", ttl` when a TTL is given (SET without EX drops any TTL). */
    method Set(key: string, value: Js, ttl: Option<int>)
      requires Valid() && IsJson(value)
      modifies this
      ensures Valid()
      ensures entries == old(entries)[key := Entry(value, ttl)]
    {
      entries := entries[key := Entry(value, ttl)];
    }

    /** `redis.del(key)` */
    method Del(key: string)
      requires Valid()
      modifies this
      ensures Valid()
      ensures entries == old(entries) - {key}
    {
      entries := entries - {key};
    }

    /** getCart (server.js:50-56): the stored document, or null when the key is absent. */
    method GetCart(key: string) returns (cart: Js)
      ensures key in entries ==> cart == entries[key].value
      ensures key !in entries ==> cart == Null
      ensures cart == DocumentAt(entries, key)
    {
      var doc := Get(key);
      cart := if doc.Some? then doc.value else Null;
    }

    /** getCartItems (server.js:67-74): the stored document, or an empty list when the key is absent. */
    method GetCartItems(key: string) returns (items: Js)
      ensures key in entries ==> items == entries[key].value
      ensures key !in entries ==> items == Arr([])
      ensures items == ItemsAt(entries, key)
    {
      var doc := Get(key);
      items := if doc.Some? then doc.value else Arr([]);
    }

    /** getCheckoutSession (server.js:76-89): the session's checkout record, or null. */
    method GetCheckoutSession(sessionId: string) returns (checkout: Js)
      ensures CheckoutKey(sessionId) in entries ==> checkout == entries[CheckoutKey(sessionId)].value
      ensures CheckoutKey(sessionId) !in entries ==> checkout == Null
    {
      checkout := GetCart(CheckoutKey(sessionId));
    }

    /** resetShippingCharges (server.js:91-110) */
    method ResetShippingCharges(sessionId: string, cartItems: Js) returns (settled: Settled)
      requires Valid()
      modifies this
      ensures Valid()
      ensures Effect(entries, settled) == ResetShippingChargesEffect(old(entries), sessionId, cartItems)
    {
      var checkout := GetCheckoutSession(sessionId);
      var flags := CompositionFlags(cartItems);
      if flags.Throw? {
        return Failed(flags.fault);
      }
      Set(CheckoutKey(sessionId), Serialized(CheckoutRecord(flags.value, checkout)), None);
      settled := Done;
    }

    /** clearCartSessionData (server.js:279-298) */
    method ClearCartSessionData(cartKey: string, wooSessionId: Js, itemsKey: string, countKey: string,
                                decode: string -> Option<Claims>, nowMs: int) returns (settled: Settled)
      requires Valid()
      modifies this
      ensures Valid()
      ensures Effect(entries, settled)
           == ClearCartSessionDataEffect(old(entries), cartKey, wooSessionId, itemsKey, countKey, decode, nowMs)
    {
      var expiresIn := ExpiresIn(wooSessionId, decode, nowMs);
      if expiresIn.Throw? {
        return Failed(expiresIn.fault);
      }
      Set(cartKey, Serialized(ZeroCart), Some(expiresIn.value));
      Del(itemsKey);
      Del(countKey);
      settled := Done;
    }

    /** setCartSessionData (server.js:307-311) */
    method SetCartSessionData(key: string, wooSessionId: Js, payload: Js,
                              decode: string -> Option<Claims>, nowMs: int) returns (settled: Settled)
      requires Valid() && !payload.Undefined?
      modifies this
      ensures Valid()
      ensures Effect(entries, settled) == SetCartSessionDataEffect(old(entries), key, wooSessionId, payload, decode, nowMs)
    {
      var expiresIn := ExpiresIn(wooSessionId, decode, nowMs);
      if expiresIn.Throw? {
        return Failed(expiresIn.fault);
      }
      Set(key, Serialized(payload), Some(expiresIn.value));
      settled := Done;
    }
  }
}
