/**
 * The addToCart and removeCart stream listeners of server.js as sequential
 * transitions of the store. The commerce library is the parameter `cart`,
 * `Date.now()` is `nowMs`, and the token decoding is `decode`. addToCart
 * publishes at most one event on the session's channel; removeCart publishes
 * none and, having no catch, settles as a rejected promise when it throws.
 */
module Listeners {
  import opened Wrappers
  import opened JsValues
  import opened CartHelpers
  import opened SessionStore

  /** The payload of an addToCart emission (server.js:131-139). */
  datatype AddRequest = AddRequest(
    sessionId: string,
    cartItem: Js,
    paymentIntentId: Js,
    wooSessionId: Js,
    cartVersion: Js,
    cartSessionId: string,
    cartItemSessionId: string,
    cartItemCountSessionId: string)

  /** The payload of a removeCart emission (server.js:327-334). */
  datatype RemoveRequest = RemoveRequest(
    sessionId: string,
    wooSessionId: Js,
    cartItem: Js,
    cartSessionId: string,
    cartItemSessionId: string,
    cartItemCountSessionId: string)

  /** A call into the commerce library. */
  datatype Call =
    | AddVariableProductToCart(input: Js)
    | AddSimpleProductToCart(input: Js)
    | RemoveCartItem(sessionId: string, wooSessionId: Js, paymentIntentId: Js, cartId: Js)
    | ClearCart(clearSessionId: Js, clearWooSessionId: Js)

  /** How a call into the commerce library settles. */
  datatype Reply = Resolved(value: Js) | Rejected(reason: string)

  /** What the listeners publish on the `channel` of a session. */
  datatype Event =
      /** `{type: "addToCart", message: "Add to cart is completed successfully!", cartItem: {name}}` */
    | AddedToCart(channel: string, itemName: Js)
      /** `{type: "Error", message: err.message}` */
    | ErrorEvent(channel: string, fault: Fault)

  /** The store after an addToCart run, and the event it published, if any. */
  datatype Emission = Emission(entries: Entries, event: Option<Event>)

  // ---------------------------------------------------------------------------
  // addToCart (server.js:131-277)

  /** The keys an addToCart or removeCart run may write. */
  function SessionKeys(cartKey: string, itemsKey: string, countKey: string, sessionId: string): set<string> {
    {cartKey, itemsKey, countKey, CheckoutKey(sessionId)}
  }

  function AddKeys(data: AddRequest): set<string> {
    SessionKeys(data.cartSessionId, data.cartItemSessionId, data.cartItemCountSessionId, data.sessionId)
  }

  /** The four keys of an addToCart run are four different keys. */
  predicate DistinctAddKeys(data: AddRequest) {
    DistinctKeys(data.cartSessionId, data.cartItemSessionId, data.cartItemCountSessionId, CheckoutKey(data.sessionId))
  }

  predicate DistinctKeys(a: string, b: string, c: string, d: string) {
    a != b && a != c && a != d && b != c && b != d && c != d
  }

  /**
   * The library call of server.js:142-164: the variable-product call when the
   * requested item has a truthy variation, the simple-product call otherwise.
   */
  function AddCall(data: AddRequest): (r: Result<Call>)
    ensures r.Ok? <==> !Nullish(data.cartItem)
    ensures r.Throw? ==> r.fault == CannotReadProperty(data.cartItem, "variation")
    ensures r.Ok? ==> (r.value.AddVariableProductToCart? <==> Truthy(Prop(data.cartItem, "variation")))
    ensures r.Ok? ==> r.value.AddVariableProductToCart? || r.value.AddSimpleProductToCart?
  {
    var variation :- Get(data.cartItem, "variation");
    var item := data.cartItem;
    if Truthy(variation) then
      Ok(AddVariableProductToCart(Obj(map[
        "databaseId" := Prop(item, "id"),
        "quantity" := Prop(item, "quantity"),
        "clientMutationId" := Str(data.sessionId),
        "paymentIntentId" := data.paymentIntentId,
        "wooSessionId" := data.wooSessionId,
        "variation" := variation])))
    else
      Ok(AddSimpleProductToCart(Obj(map[
        "databaseId" := Prop(item, "id"),
        "quantity" := Prop(item, "quantity"),
        "clientMutationId" := Str(data.sessionId),
        "paymentIntentId" := data.paymentIntentId,
        "wooSessionId" := data.wooSessionId,
        "manufacturerCustomFields" := Null])))
  }

  /** `dbId` (server.js:215-217): the variation's database id when there is a variation, else the item id. */
  function DbId(item: Js): Js
    requires !Nullish(item)
  {
    var variation := Prop(item, "variation");
    if Truthy(variation) then Prop(variation, "databaseId") else Prop(item, "id")
  }

  /**
   * The id the upsert looks for is the one the library was asked to add for a
   * simple product, but the variation's `databaseId` for a variable product.
   */
  lemma DbIdOfCall(data: AddRequest)
    requires !Nullish(data.cartItem)
    ensures var call := AddCall(data).value;
      && call.input.Obj? && "databaseId" in call.input.fields
      && (call.AddSimpleProductToCart? ==> DbId(data.cartItem) == call.input.fields["databaseId"])
      && (call.AddVariableProductToCart? ==>
            && "variation" in call.input.fields
            && !Nullish(call.input.fields["variation"])
            && DbId(data.cartItem) == Prop(call.input.fields["variation"], "databaseId"))
  {
  }

  /** `data.cartItem.type === "VARIABLE"` */
  predicate IsVariable(item: Js)
    requires !Nullish(item)
  {
    StrictEquals(Prop(item, "type"), Str("VARIABLE"))
  }

  /**
   * The cached item lookup of server.js:219-226. For a VARIABLE item the callback
   * reads `ci.type` and then the undeclared `idType`, so it throws as soon as it
   * runs; only an empty list lets the lookup finish, with nothing found.
   */
  function CachedItem(cartItems: Js, item: Js, dbId: Js): (r: Result<Js>)
    requires !Nullish(item)
    ensures r.Ok? ==> cartItems.Arr?
    ensures !cartItems.Arr? ==> r == Throw(NoMethod(cartItems, "find", "cartItems.find"))
    ensures r.Ok? && IsVariable(item) ==> r.value == Undefined && cartItems.elems == []
    ensures r.Ok? && !r.value.Undefined? ==>
      exists i :: 0 <= i < |cartItems.elems| && cartItems.elems[i] == r.value &&
        !Nullish(r.value) && HasId(r.value, dbId) && NoneMatch(cartItems.elems, dbId, 0, i)
    ensures r.Ok? && r.value.Undefined? && !IsVariable(item) ==> NoneMatch(cartItems.elems, dbId, 0, |cartItems.elems|)
  {
    if !cartItems.Arr? then Throw(NoMethod(cartItems, "find", "cartItems.find"))
    else if IsVariable(item) then
      if cartItems.elems == [] then Ok(Undefined)
      else if Nullish(cartItems.elems[0]) then Throw(CannotReadProperty(cartItems.elems[0], "type"))
      else Throw(NotDefined("idType"))
    else
      var found :- FindById(cartItems.elems, dbId, 0);
      if found.None? then Ok(Undefined) else Ok(cartItems.elems[found.value])
  }

  /** The filter of server.js:234-241: every item but the one being updated. */
  function OtherItems(items: seq<Js>, item: Js, dbId: Js): (r: Result<seq<Js>>)
    requires !Nullish(item)
    ensures !IsVariable(item) ==> r == WithoutId(items, dbId)
    ensures IsVariable(item) && items != [] ==> r.Throw?
  {
    if IsVariable(item) then
      if items == [] then Ok([])
      else if Nullish(items[0]) then Throw(CannotReadProperty(items[0], "type"))
      else Throw(NotDefined("idType"))
    else WithoutId(items, dbId)
  }

  /** The library accepted the item but its response carries no session token (server.js:168). */
  predicate NoSessionToken(data: AddRequest, cart: Call -> Reply) {
    && AddCall(data).Ok?
    && var reply := cart(AddCall(data).value);
    && reply.Resolved?
    && !Nullish(reply.value)
    && !Truthy(Prop(reply.value, "wooSessionId"))
  }

  /**
   * addToCart as a transition: publishes nothing, and changes nothing, exactly when
   * the library's response has no session token; otherwise it publishes one event on
   * the session's channel. Only the session's four keys can change.
   */
  function AddToCartEffect(e: Entries, data: AddRequest, cart: Call -> Reply,
                           decode: string -> Option<Claims>, nowMs: int): (r: Emission)
    ensures r.entries - AddKeys(data) == e - AddKeys(data)
    ensures r.event.None? <==> NoSessionToken(data, cart)
    ensures r.event.None? ==> r.entries == e
    ensures r.event.Some? ==> r.event.value.channel == data.sessionId
  {
    var sid := data.sessionId;
    match AddCall(data)
    case Throw(f) => Emission(e, Some(ErrorEvent(sid, f)))
    case Ok(call) =>
      match cart(call)
      case Rejected(reason) => Emission(e, Some(ErrorEvent(sid, Upstream(reason))))
      case Resolved(response) =>
        match Get(response, "wooSessionId")
        case Throw(f) => Emission(e, Some(ErrorEvent(sid, f)))
        case Ok(token) =>
          if !Truthy(token) then Emission(e, None)
          else
            var oldCart := DocumentAt(e, data.cartSessionId);
            if Truthy(oldCart) && !StrictEquals(Prop(oldCart, "version"), data.cartVersion) then
              FrameWidens(e - {data.cartSessionId}, e, {data.cartSessionId}, AddKeys(data));
              Emission(e - {data.cartSessionId}, Some(ErrorEvent(sid, VersionChanged)))
            else
              match ExpiresIn(data.wooSessionId, decode, nowMs)
              case Throw(f) => Emission(e, Some(ErrorEvent(sid, f)))
              case Ok(ttl) =>
                var written := WrittenCart(e, data, response, ttl);
                FrameWidens(written, e, {data.cartSessionId}, AddKeys(data));
                UpsertItemEffect(written, data, response, ttl)
  }

  /** The store once the merged cart is written under the cart key (server.js:176-196). */
  function WrittenCart(e: Entries, data: AddRequest, response: Js, ttl: int): Entries
    requires !Nullish(response)
  {
    var newCart := NewCart(DocumentAt(e, data.cartSessionId), response, data.sessionId, data.wooSessionId);
    e[data.cartSessionId := Entry(Serialized(newCart), Some(ttl))]
  }

  /** The part of addToCart after the cart key is written (server.js:198-267). */
  function UpsertItemEffect(e: Entries, data: AddRequest, response: Js, ttl: int): (r: Emission)
    requires !Nullish(response) && !Nullish(data.cartItem)
    ensures r.entries - AddKeys(data) == e - AddKeys(data)
    ensures r.event.Some? && r.event.value.channel == data.sessionId
  {
    var sid := data.sessionId;
    match NewCartItem(Prop(response, "cartItem"), Prop(data.cartItem, "variation"))
    case Throw(f) => Emission(e, Some(ErrorEvent(sid, f)))
    case Ok(incoming) =>
      var cartItems := ItemsAt(e, data.cartItemSessionId);
      var dbId := DbId(data.cartItem);
      match CachedItem(cartItems, data.cartItem, dbId)
      case Throw(f) => Emission(e, Some(ErrorEvent(sid, f)))
      case Ok(cached) =>
        if !Truthy(cached) then Emission(e, Some(ErrorEvent(sid, InvalidCartItem(dbId))))
        else
          var updated := Assigned(cached, incoming);
          match OtherItems(cartItems.elems, data.cartItem, dbId)
          case Throw(f) => Emission(e, Some(ErrorEvent(sid, f)))
          case Ok(others) =>
            WriteItemsEffect(e, data, cartItems, others + [updated], Prop(updated, "name"), ttl)
  }

  /**
   * The writes that end a successful addToCart (server.js:243-262): the item list,
   * its length, and the reset checkout record computed from the items read before.
   */
  function WriteItemsEffect(e: Entries, data: AddRequest, cartItems: Js, newItems: seq<Js>, name: Js, ttl: int): (r: Emission)
    ensures r.entries - AddKeys(data) == e - AddKeys(data)
    ensures r.event.Some? && r.event.value.channel == data.sessionId
  {
    var sid := data.sessionId;
    var withItems := e[data.cartItemSessionId := Entry(Serialized(Arr(newItems)), Some(ttl))];
    var withCount := withItems[data.cartItemCountSessionId := Entry(Num(|newItems| as real), Some(ttl))];
    var reset := ResetShippingChargesEffect(withCount, sid, cartItems);
    FrameWidens(withItems, e, {data.cartItemSessionId}, AddKeys(data));
    FrameWidens(withCount, withItems, {data.cartItemCountSessionId}, AddKeys(data));
    FrameWidens(reset.entries, withCount, {CheckoutKey(sid)}, AddKeys(data));
    match reset.settled
    case Failed(f) => Emission(reset.entries, Some(ErrorEvent(sid, f)))
    case Done => Emission(reset.entries, Some(AddedToCart(sid, name)))
  }

  /** The addToCart listener body, one store command at a time. */
  method AddToCart(store: Store, data: AddRequest, cart: Call -> Reply,
                   decode: string -> Option<Claims>, nowMs: int) returns (emitted: Option<Event>)
    requires store.Valid()
    modifies store
    ensures store.Valid()
    ensures Emission(store.entries, emitted) == AddToCartEffect(old(store.entries), data, cart, decode, nowMs)
  {
    var sid := data.sessionId;
    var call := AddCall(data);
    if call.Throw? {
      return Some(ErrorEvent(sid, call.fault));
    }
    var reply := cart(call.value);
    if reply.Rejected? {
      return Some(ErrorEvent(sid, Upstream(reply.reason)));
    }
    var response := reply.value;
    var token := Get(response, "wooSessionId");
    if token.Throw? {
      return Some(ErrorEvent(sid, token.fault));
    }
    if !Truthy(token.value) {
      return None;
    }
    var oldCart := store.GetCart(data.cartSessionId);
    if Truthy(oldCart) && !StrictEquals(Prop(oldCart, "version"), data.cartVersion) {
      store.Del(data.cartSessionId);
      return Some(ErrorEvent(sid, VersionChanged));
    }
    var expiresIn := ExpiresIn(data.wooSessionId, decode, nowMs);
    if expiresIn.Throw? {
      return Some(ErrorEvent(sid, expiresIn.fault));
    }
    var ttl := expiresIn.value;
    store.Set(data.cartSessionId, Serialized(NewCart(oldCart, response, sid, data.wooSessionId)), Some(ttl));
    emitted := UpsertItem(store, data, response, ttl);
  }

  /** The part of the addToCart listener after the cart key is written. */
  method UpsertItem(store: Store, data: AddRequest, response: Js, ttl: int) returns (emitted: Option<Event>)
    requires store.Valid() && !Nullish(response) && !Nullish(data.cartItem)
    modifies store
    ensures store.Valid()
    ensures Emission(store.entries, emitted) == UpsertItemEffect(old(store.entries), data, response, ttl)
  {
    var sid := data.sessionId;
    var incoming := NewCartItem(Prop(response, "cartItem"), Prop(data.cartItem, "variation"));
    if incoming.Throw? {
      return Some(ErrorEvent(sid, incoming.fault));
    }
    var cartItems := store.GetCartItems(data.cartItemSessionId);
    var dbId := DbId(data.cartItem);
    var cached := CachedItem(cartItems, data.cartItem, dbId);
    if cached.Throw? {
      return Some(ErrorEvent(sid, cached.fault));
    }
    if !Truthy(cached.value) {
      return Some(ErrorEvent(sid, InvalidCartItem(dbId)));
    }
    var updated := Assigned(cached.value, incoming.value);
    var others := OtherItems(cartItems.elems, data.cartItem, dbId);
    if others.Throw? {
      return Some(ErrorEvent(sid, others.fault));
    }
    var newCartItems := others.value;
    newCartItems := newCartItems + [updated];
    emitted := WriteItems(store, data, cartItems, newCartItems, Prop(updated, "name"), ttl);
  }

  /** The writes that end a successful addToCart run. */
  method WriteItems(store: Store, data: AddRequest, cartItems: Js, newCartItems: seq<Js>, name: Js, ttl: int)
    returns (emitted: Option<Event>)
    requires store.Valid()
    modifies store
    ensures store.Valid()
    ensures Emission(store.entries, emitted) == WriteItemsEffect(old(store.entries), data, cartItems, newCartItems, name, ttl)
  {
    var sid := data.sessionId;
    store.Set(data.cartItemSessionId, Serialized(Arr(newCartItems)), Some(ttl));
    store.Set(data.cartItemCountSessionId, Num(|newCartItems| as real), Some(ttl));
    var reset := store.ResetShippingCharges(sid, cartItems);
    if reset.Failed? {
      return Some(ErrorEvent(sid, reset.fault));
    }
    emitted := Some(AddedToCart(sid, name));
  }

  /** The run published the success event. */
  predicate AddSucceeded(e: Entries, data: AddRequest, cart: Call -> Reply,
                         decode: string -> Option<Claims>, nowMs: int) {
    var r := AddToCartEffect(e, data, cart, decode, nowMs);
    r.event.Some? && r.event.value.AddedToCart?
  }

  /** The library answered the add call with `response`, which carries a session token. */
  predicate TokenReceived(data: AddRequest, cart: Call -> Reply, response: Js) {
    && AddCall(data).Ok?
    && cart(AddCall(data).value) == Resolved(response)
    && !Nullish(response)
    && Truthy(Prop(response, "wooSessionId"))
  }

  /** The stored cart, if any, carries the version the request was made against. */
  predicate VersionMatches(e: Entries, data: AddRequest) {
    var oldCart := DocumentAt(e, data.cartSessionId);
    !Truthy(oldCart) || StrictEquals(Prop(oldCart, "version"), data.cartVersion)
  }

  /**
   * A stored cart of another version is deleted, and the one event is the version
   * error; nothing else is written (server.js:169-173, 269-273).
   */
  lemma AddRejectsChangedVersion(e: Entries, data: AddRequest, cart: Call -> Reply,
                                 decode: string -> Option<Claims>, nowMs: int, response: Js)
    requires TokenReceived(data, cart, response)
    requires !VersionMatches(e, data)
    ensures AddToCartEffect(e, data, cart, decode, nowMs)
         == Emission(e - {data.cartSessionId}, Some(ErrorEvent(data.sessionId, VersionChanged)))
  {
  }

  /** The event an addToCart run ends with once it has reached the item lookup. */
  predicate FromUpsert(event: Option<Event>) {
    event.Some? && (event.value.AddedToCart? || event.value.fault.InvalidCartItem?)
  }

  /**
   * A run that ends in success or in "Invalid cart item" got a session token, passed
   * the version check, computed an expiry and wrote the cart key.
   */
  lemma AddReachesUpsert(e: Entries, data: AddRequest, cart: Call -> Reply,
                         decode: string -> Option<Claims>, nowMs: int, response: Js)
    requires AddCall(data).Ok? && cart(AddCall(data).value) == Resolved(response)
    requires FromUpsert(AddToCartEffect(e, data, cart, decode, nowMs).event)
    ensures TokenReceived(data, cart, response) && VersionMatches(e, data)
    ensures ExpiresIn(data.wooSessionId, decode, nowMs).Ok?
    ensures var ttl := ExpiresIn(data.wooSessionId, decode, nowMs).value;
      AddToCartEffect(e, data, cart, decode, nowMs) == UpsertItemEffect(WrittenCart(e, data, response, ttl), data, response, ttl)
  {
  }

  /** A successful upsert was given a line item by the library and was not for a VARIABLE item. */
  lemma UpsertSuccessPath(e: Entries, data: AddRequest, response: Js, ttl: int)
    requires !Nullish(response) && !Nullish(data.cartItem)
    requires var r := UpsertItemEffect(e, data, response, ttl); r.event.value.AddedToCart?
    ensures !IsVariable(data.cartItem) && !Nullish(Prop(response, "cartItem"))
    ensures var items := ItemsAt(e, data.cartItemSessionId);
      var dbId := DbId(data.cartItem);
      && CachedItem(items, data.cartItem, dbId).Ok?
      && Truthy(CachedItem(items, data.cartItem, dbId).value)
      && WithoutId(items.elems, dbId).Ok?
      && CompositionFlags(items).Ok?
    ensures var items := ItemsAt(e, data.cartItemSessionId);
      var dbId := DbId(data.cartItem);
      var incoming := NewCartItem(Prop(response, "cartItem"), Prop(data.cartItem, "variation")).value;
      var updated := Assigned(CachedItem(items, data.cartItem, dbId).value, incoming);
      UpsertItemEffect(e, data, response, ttl)
      == WriteItemsEffect(e, data, items, WithoutId(items.elems, dbId).value + [updated], Prop(updated, "name"), ttl)
  {
  }

  /** A VARIABLE item never gets past the item lookup (server.js:220-241). */
  lemma AddVariableItemNeverSucceeds(e: Entries, data: AddRequest, cart: Call -> Reply,
                                     decode: string -> Option<Claims>, nowMs: int)
    requires !Nullish(data.cartItem) && IsVariable(data.cartItem)
    ensures !AddSucceeded(e, data, cart, decode, nowMs)
  {
    var r := AddToCartEffect(e, data, cart, decode, nowMs);
    if r.event.Some? && r.event.value.AddedToCart? {
      var reply := cart(AddCall(data).value);
      AddReachesUpsert(e, data, cart, decode, nowMs, reply.value);
      var ttl := ExpiresIn(data.wooSessionId, decode, nowMs).value;
      UpsertSuccessPath(WrittenCart(e, data, reply.value, ttl), data, reply.value, ttl);
      assert false;
    }
  }

  /**
   * `entries` holds, under the items key, the non-null `items` without the id, in
   * their order and each as often as before, followed by one last item that has the id and is the first stored
   * item with it merged with `incoming`; under the count key, the list's length.
   */
  ghost predicate UpsertedListStored(entries: Entries, data: AddRequest, items: seq<Js>, dbId: Js, incoming: Js, ttl: int) {
    && data.cartItemSessionId in entries
    && data.cartItemCountSessionId in entries
    && entries[data.cartItemSessionId].value.Arr?
    && var list := entries[data.cartItemSessionId].value.elems;
    && |list| >= 1
    && entries[data.cartItemSessionId].ttl == Some(ttl)
    && entries[data.cartItemCountSessionId] == Entry(Num(|list| as real), Some(ttl))
    && (forall i :: 0 <= i < |items| ==> !Nullish(items[i]))
    && IsSubsequence(list[..|list| - 1], items)
    && (forall x :: x in list[..|list| - 1] ==> !Nullish(x) && !HasId(x, dbId))
    && (forall i :: 0 <= i < |items| && !HasId(items[i], dbId) ==> items[i] in list[..|list| - 1])
    && (forall x :: multiset(list[..|list| - 1])[x] == if !Nullish(x) && !HasId(x, dbId) then multiset(items)[x] else 0)
    && !Nullish(list[|list| - 1]) && HasId(list[|list| - 1], dbId)
    && exists i :: 0 <= i < |items| && HasId(items[i], dbId) && NoneMatch(items, dbId, 0, i) &&
         list[|list| - 1] == Serialized(Assigned(items[i], incoming))
  }

  /** What the closing writes leave under the four keys when the checkout reset succeeds. */
  lemma WriteItemsStores(e: Entries, data: AddRequest, cartItems: Js, newItems: seq<Js>, name: Js, ttl: int)
    requires DistinctAddKeys(data)
    requires WriteItemsEffect(e, data, cartItems, newItems, name, ttl).event.value.AddedToCart?
    ensures CompositionFlags(cartItems).Ok?
    ensures var r := WriteItemsEffect(e, data, cartItems, newItems, name, ttl);
      var ck := CheckoutKey(data.sessionId);
      && data.cartItemSessionId in r.entries
      && r.entries[data.cartItemSessionId] == Entry(Serialized(Arr(newItems)), Some(ttl))
      && data.cartItemCountSessionId in r.entries
      && r.entries[data.cartItemCountSessionId] == Entry(Num(|newItems| as real), Some(ttl))
      && ck in r.entries
      && r.entries[ck] == Entry(Serialized(CheckoutRecord(CompositionFlags(cartItems).value, DocumentAt(e, ck))), None)
      && (data.cartSessionId in r.entries <==> data.cartSessionId in e)
      && (data.cartSessionId in e ==> r.entries[data.cartSessionId] == e[data.cartSessionId])
  {
    var ck := CheckoutKey(data.sessionId);
    var withItems := e[data.cartItemSessionId := Entry(Serialized(Arr(newItems)), Some(ttl))];
    var withCount := withItems[data.cartItemCountSessionId := Entry(Num(|newItems| as real), Some(ttl))];
    assert DocumentAt(withCount, ck) == DocumentAt(e, ck);
  }

  /**
   * A successful upsert stores the old items without the id, in their order,
   * followed by the one merged item that has it, and the list's length.
   */
  lemma UpsertStoresMergedList(e: Entries, data: AddRequest, response: Js, ttl: int)
    requires AllJson(e) && DistinctAddKeys(data)
    requires !Nullish(response) && !Nullish(data.cartItem)
    requires var r := UpsertItemEffect(e, data, response, ttl); r.event.value.AddedToCart?
    ensures !Nullish(Prop(response, "cartItem"))
    ensures ItemsAt(e, data.cartItemSessionId).Arr?
    ensures var incoming := NewCartItem(Prop(response, "cartItem"), Prop(data.cartItem, "variation")).value;
      UpsertedListStored(UpsertItemEffect(e, data, response, ttl).entries, data,
                         ItemsAt(e, data.cartItemSessionId).elems, DbId(data.cartItem), incoming, ttl)
  {
    UpsertSuccessPath(e, data, response, ttl);
    var items := ItemsAt(e, data.cartItemSessionId);
    var dbId := DbId(data.cartItem);
    var incoming := NewCartItem(Prop(response, "cartItem"), Prop(data.cartItem, "variation")).value;
    var cached := CachedItem(items, data.cartItem, dbId).value;
    var others := WithoutId(items.elems, dbId).value;
    var updated := Assigned(cached, incoming);
    var r := WriteItemsEffect(e, data, items, others + [updated], Prop(updated, "name"), ttl);
    WriteItemsStores(e, data, items, others + [updated], Prop(updated, "name"), ttl);
    assert IsJson(items);
    NewCartItemHasNoId(Prop(response, "cartItem"), Prop(data.cartItem, "variation"));
    MergedListStored(r.entries, data, items.elems, dbId, cached, incoming, others, ttl);
  }

  /** Storing the built list keeps the old items as they are and stores the merged one serialized. */
  lemma StoredListKeepsOldItems(others: seq<Js>, updated: Js)
    requires forall j :: 0 <= j < |others| ==> IsJson(others[j])
    requires updated.Obj?
    ensures Serialized(Arr(others + [updated])).elems == others + [Serialized(updated)]
  {
    var list := Serialized(Arr(others + [updated])).elems;
    forall j | 0 <= j < |others| ensures list[j] == others[j] {
      assert (others + [updated])[j] == others[j];
      SerializedKeepsJson(others[j]);
    }
    assert (others + [updated])[|others|] == updated;
  }

  /** The merged item keeps the stored item's id through serialization: the library's fields carry none. */
  lemma MergedItemKeepsId(cached: Js, incoming: Js, dbId: Js)
    requires IsJson(cached) && !Nullish(cached) && HasId(cached, dbId)
    requires incoming.Obj? && "id" !in incoming.fields
    ensures !Nullish(Serialized(Assigned(cached, incoming)))
    ensures HasId(Serialized(Assigned(cached, incoming)), dbId)
  {
    var updated := Assigned(cached, incoming);
    AssignedFields(cached, incoming);
    if "id" in OwnFields(cached) {
      SerializedKeepsField(updated.fields, "id");
    } else {
      assert "id" !in updated.fields;
    }
  }

  /** The list the upsert builds, once stored, has the shape `UpsertedListStored` describes. */
  lemma MergedListStored(entries: Entries, data: AddRequest, items: seq<Js>, dbId: Js,
                         cached: Js, incoming: Js, others: seq<Js>, ttl: int)
    requires forall i :: 0 <= i < |items| ==> IsJson(items[i])
    requires WithoutId(items, dbId) == Ok(others)
    requires exists i :: 0 <= i < |items| && items[i] == cached && HasId(items[i], dbId) && NoneMatch(items, dbId, 0, i)
    requires incoming.Obj? && "id" !in incoming.fields
    requires data.cartItemSessionId in entries && data.cartItemCountSessionId in entries
    requires entries[data.cartItemSessionId] == Entry(Serialized(Arr(others + [Assigned(cached, incoming)])), Some(ttl))
    requires entries[data.cartItemCountSessionId] == Entry(Num(|others + [Assigned(cached, incoming)]| as real), Some(ttl))
    ensures UpsertedListStored(entries, data, items, dbId, incoming, ttl)
  {
    var updated := Assigned(cached, incoming);
    SubsequenceMembers(others, items);
    forall j | 0 <= j < |others| ensures IsJson(others[j]) {
      assert others[j] in items;
    }
    StoredListKeepsOldItems(others, updated);
    var list := entries[data.cartItemSessionId].value.elems;
    assert list[..|list| - 1] == others;
    WithoutIdCounts(items, dbId);
    MergedItemKeepsId(cached, incoming, dbId);
  }

  /**
   * After a successful run, the stored list is the old items without the id, in
   * their order, followed by the one merged item that has it; the count key holds
   * the list's length; both carry the token's expiry (server.js:214-257).
   */
  lemma AddSuccessUpsertsLineItem(e: Entries, data: AddRequest, cart: Call -> Reply,
                                  decode: string -> Option<Claims>, nowMs: int, response: Js)
    requires AllJson(e) && DistinctAddKeys(data)
    requires AddCall(data).Ok? && cart(AddCall(data).value) == Resolved(response)
    requires AddSucceeded(e, data, cart, decode, nowMs)
    ensures !Nullish(data.cartItem) && !Nullish(response) && !Nullish(Prop(response, "cartItem"))
    ensures ExpiresIn(data.wooSessionId, decode, nowMs).Ok?
    ensures ItemsAt(e, data.cartItemSessionId).Arr?
    ensures var incoming := NewCartItem(Prop(response, "cartItem"), Prop(data.cartItem, "variation")).value;
      UpsertedListStored(AddToCartEffect(e, data, cart, decode, nowMs).entries, data,
                         ItemsAt(e, data.cartItemSessionId).elems, DbId(data.cartItem), incoming,
                         ExpiresIn(data.wooSessionId, decode, nowMs).value)
  {
    AddReachesUpsert(e, data, cart, decode, nowMs, response);
    var ttl := ExpiresIn(data.wooSessionId, decode, nowMs).value;
    var w := WrittenCart(e, data, response, ttl);
    WrittenCartKeepsOthers(e, data, response, ttl);
    UpsertStoresMergedList(w, data, response, ttl);
  }

  /** Writing the cart key keeps the store JSON and leaves the other three keys as they were. */
  lemma WrittenCartKeepsOthers(e: Entries, data: AddRequest, response: Js, ttl: int)
    requires DistinctAddKeys(data) && !Nullish(response)
    ensures var w := WrittenCart(e, data, response, ttl);
      && (AllJson(e) ==> AllJson(w))
      && ItemsAt(w, data.cartItemSessionId) == ItemsAt(e, data.cartItemSessionId)
      && DocumentAt(w, CheckoutKey(data.sessionId)) == DocumentAt(e, CheckoutKey(data.sessionId))
  {
  }

  /** A successful upsert resets the checkout record from the items read before the upsert. */
  lemma UpsertResetsCheckoutFromOldItems(e: Entries, data: AddRequest, response: Js, ttl: int)
    requires DistinctAddKeys(data)
    requires !Nullish(response) && !Nullish(data.cartItem)
    requires var r := UpsertItemEffect(e, data, response, ttl); r.event.value.AddedToCart?
    ensures CompositionFlags(ItemsAt(e, data.cartItemSessionId)).Ok?
    ensures var r := UpsertItemEffect(e, data, response, ttl);
      var flags := CompositionFlags(ItemsAt(e, data.cartItemSessionId)).value;
      && CheckoutKey(data.sessionId) in r.entries
      && r.entries[CheckoutKey(data.sessionId)]
         == Entry(Serialized(CheckoutRecord(flags, DocumentAt(e, CheckoutKey(data.sessionId)))), None)
      && (data.cartSessionId in r.entries <==> data.cartSessionId in e)
      && (data.cartSessionId in e ==> r.entries[data.cartSessionId] == e[data.cartSessionId])
  {
    UpsertSuccessPath(e, data, response, ttl);
    var items := ItemsAt(e, data.cartItemSessionId);
    var dbId := DbId(data.cartItem);
    var incoming := NewCartItem(Prop(response, "cartItem"), Prop(data.cartItem, "variation")).value;
    var updated := Assigned(CachedItem(items, data.cartItem, dbId).value, incoming);
    var newItems := WithoutId(items.elems, dbId).value + [updated];
    WriteItemsStores(e, data, items, newItems, Prop(updated, "name"), ttl);
  }

  /**
   * `entries` holds, under the cart key, the cart stored in `e` overlaid with the
   * response and the session (server.js:176-196), and under the checkout key the
   * record `e` held, reset with `flags` (server.js:91-110).
   */
  predicate CartAndCheckoutStored(entries: Entries, e: Entries, data: AddRequest, response: Js, flags: Flags, ttl: int)
    requires !Nullish(response)
  {
    var ck := CheckoutKey(data.sessionId);
    var newCart := NewCart(DocumentAt(e, data.cartSessionId), response, data.sessionId, data.wooSessionId);
    && data.cartSessionId in entries
    && entries[data.cartSessionId] == Entry(Serialized(newCart), Some(ttl))
    && ck in entries
    && entries[ck] == Entry(Serialized(CheckoutRecord(flags, DocumentAt(e, ck))), None)
  }

  /**
   * After a successful run, the cart key holds the stored cart overlaid with the
   * response's totals and coupons, the session id and the request's token, and the
   * checkout record's flags come from the item list as it was before the upsert
   * (server.js:176-196, 259).
   */
  lemma AddSuccessWritesCartAndCheckout(e: Entries, data: AddRequest, cart: Call -> Reply,
                                        decode: string -> Option<Claims>, nowMs: int, response: Js)
    requires DistinctAddKeys(data)
    requires AddCall(data).Ok? && cart(AddCall(data).value) == Resolved(response)
    requires AddSucceeded(e, data, cart, decode, nowMs)
    ensures !Nullish(response) && ExpiresIn(data.wooSessionId, decode, nowMs).Ok?
    ensures CompositionFlags(ItemsAt(e, data.cartItemSessionId)).Ok?
    ensures CartAndCheckoutStored(AddToCartEffect(e, data, cart, decode, nowMs).entries, e, data, response,
                                  CompositionFlags(ItemsAt(e, data.cartItemSessionId)).value,
                                  ExpiresIn(data.wooSessionId, decode, nowMs).value)
  {
    AddReachesUpsert(e, data, cart, decode, nowMs, response);
    var ttl := ExpiresIn(data.wooSessionId, decode, nowMs).value;
    WrittenCartKeepsOthers(e, data, response, ttl);
    UpsertResetsCheckoutFromOldItems(WrittenCart(e, data, response, ttl), data, response, ttl);
  }

  /**
   * Searching `items` in order meets no null item, and the first item with the id,
   * if there is one, is falsy: what `!cachedCartItem` catches (server.js:225-228).
   */
  predicate FirstMatchIsFalsy(items: seq<Js>, dbId: Js) {
    forall i :: 0 <= i < |items| && NoneMatch(items, dbId, 0, i) ==>
      !Nullish(items[i]) && (HasId(items[i], dbId) ==> !Truthy(items[i]))
  }

  /** "Invalid cart item" leaves the store as it was given, and the first stored item with the id, if any, is falsy. */
  lemma UpsertInvalidItemWritesNothing(e: Entries, data: AddRequest, response: Js, ttl: int)
    requires !Nullish(response) && !Nullish(data.cartItem)
    requires var r := UpsertItemEffect(e, data, response, ttl);
      r.event.value.ErrorEvent? && r.event.value.fault.InvalidCartItem?
    ensures var r := UpsertItemEffect(e, data, response, ttl);
      && r.entries == e
      && r.event.value.fault == InvalidCartItem(DbId(data.cartItem))
    ensures var items := ItemsAt(e, data.cartItemSessionId);
      && items.Arr?
      && (IsVariable(data.cartItem) ==> items.elems == [])
      && (!IsVariable(data.cartItem) ==> FirstMatchIsFalsy(items.elems, DbId(data.cartItem)))
  {
  }

  /**
   * "Invalid cart item" comes after the cart key is written: the run leaves the
   * new cart under the cart key and every other key as it was, and the first stored
   * item with the id, if any, is falsy (server.js:191-196, 228-229).
   */
  lemma AddInvalidItemKeepsCartWrite(e: Entries, data: AddRequest, cart: Call -> Reply,
                                     decode: string -> Option<Claims>, nowMs: int, response: Js)
    requires DistinctAddKeys(data)
    requires AddCall(data).Ok? && cart(AddCall(data).value) == Resolved(response)
    requires var r := AddToCartEffect(e, data, cart, decode, nowMs);
      r.event.Some? && r.event.value.ErrorEvent? && r.event.value.fault.InvalidCartItem?
    ensures TokenReceived(data, cart, response) && ExpiresIn(data.wooSessionId, decode, nowMs).Ok?
    ensures var r := AddToCartEffect(e, data, cart, decode, nowMs);
      && r.event.value.fault == InvalidCartItem(DbId(data.cartItem))
      && r.entries == WrittenCart(e, data, response, ExpiresIn(data.wooSessionId, decode, nowMs).value)
    ensures var items := ItemsAt(e, data.cartItemSessionId);
      && items.Arr?
      && (IsVariable(data.cartItem) ==> items.elems == [])
      && (!IsVariable(data.cartItem) ==> FirstMatchIsFalsy(items.elems, DbId(data.cartItem)))
  {
    AddReachesUpsert(e, data, cart, decode, nowMs, response);
    var ttl := ExpiresIn(data.wooSessionId, decode, nowMs).value;
    WrittenCartKeepsOthers(e, data, response, ttl);
    UpsertInvalidItemWritesNothing(WrittenCart(e, data, response, ttl), data, response, ttl);
  }

  /** When no stored item has the id, the upsert fails with "Invalid cart item" and writes nothing. */
  lemma UpsertMissingItemIsInvalid(e: Entries, data: AddRequest, response: Js, ttl: int)
    requires !Nullish(response) && !Nullish(data.cartItem)
    requires !Nullish(Prop(response, "cartItem")) && !IsVariable(data.cartItem)
    requires var items := ItemsAt(e, data.cartItemSessionId);
      items.Arr? && NoneMatch(items.elems, DbId(data.cartItem), 0, |items.elems|)
    ensures UpsertItemEffect(e, data, response, ttl)
         == Emission(e, Some(ErrorEvent(data.sessionId, InvalidCartItem(DbId(data.cartItem)))))
  {
  }

  /** When no stored item has the id, the run fails with "Invalid cart item" (server.js:225-229). */
  lemma AddMissingItemIsInvalid(e: Entries, data: AddRequest, cart: Call -> Reply,
                                decode: string -> Option<Claims>, nowMs: int, response: Js)
    requires DistinctAddKeys(data)
    requires TokenReceived(data, cart, response) && VersionMatches(e, data)
    requires ExpiresIn(data.wooSessionId, decode, nowMs).Ok?
    requires !Nullish(Prop(response, "cartItem")) && !IsVariable(data.cartItem)
    requires var items := ItemsAt(e, data.cartItemSessionId);
      items.Arr? && NoneMatch(items.elems, DbId(data.cartItem), 0, |items.elems|)
    ensures var r := AddToCartEffect(e, data, cart, decode, nowMs);
      && r.event == Some(ErrorEvent(data.sessionId, InvalidCartItem(DbId(data.cartItem))))
      && r.entries == WrittenCart(e, data, response, ExpiresIn(data.wooSessionId, decode, nowMs).value)
  {
    var ttl := ExpiresIn(data.wooSessionId, decode, nowMs).value;
    var w := WrittenCart(e, data, response, ttl);
    WrittenCartKeepsOthers(e, data, response, ttl);
    UpsertMissingItemIsInvalid(w, data, response, ttl);
    assert AddToCartEffect(e, data, cart, decode, nowMs) == UpsertItemEffect(w, data, response, ttl);
  }

  // ---------------------------------------------------------------------------
  // removeCart (server.js:327-369)

  function RemoveKeys(p: RemoveRequest): set<string> {
    SessionKeys(p.cartSessionId, p.cartItemSessionId, p.cartItemCountSessionId, p.sessionId)
  }

  /** The four keys of a removeCart run are four different keys. */
  predicate DistinctRemoveKeys(p: RemoveRequest) {
    DistinctKeys(p.cartSessionId, p.cartItemSessionId, p.cartItemCountSessionId, CheckoutKey(p.sessionId))
  }

  /** `{coupons, subtotal, totalDiscount}` of server.js:360-364 */
  function RemainingCart(coupons: seq<Js>, response: Js): Js
    requires !Nullish(response)
  {
    Obj(map["coupons" := Arr(coupons),
            "subtotal" := Prop(response, "subtotal"),
            "totalDiscount" := Prop(response, "totalDiscount")])
  }

  /**
   * removeCart as a transition. The payment intent passed to the library is read
   * off the unparsed stored string, so it is always undefined, and reading it
   * throws when the cart key is absent. Only the session's four keys can change.
   */
  function RemoveCartEffect(e: Entries, p: RemoveRequest, cart: Call -> Reply,
                            decode: string -> Option<Claims>, nowMs: int): (r: Effect)
    ensures r.entries - RemoveKeys(p) == e - RemoveKeys(p)
  {
    match Get(p.cartItem, "cartId")
    case Throw(f) => Effect(e, Failed(f))
    case Ok(cartId) =>
      var cartItems := ItemsAt(e, p.cartItemSessionId);
      if p.cartSessionId !in e then Effect(e, Failed(CannotReadProperty(Null, "paymentIntentId")))
      else
        match cart(RemoveCartItem(p.sessionId, p.wooSessionId, Undefined, cartId))
        case Rejected(reason) => Effect(e, Failed(Upstream(reason)))
        case Resolved(response) =>
          if !Truthy(response) then Effect(e, Done)
          else if Truthy(Prop(response, "clearCart")) then
            var cleared := cart(ClearCart(Null, p.wooSessionId));
            var c := ClearCartSessionDataEffect(e, p.cartSessionId, p.wooSessionId, p.cartItemSessionId,
                                                p.cartItemCountSessionId, decode, nowMs);
            FrameWidens(c.entries, e, {p.cartSessionId, p.cartItemSessionId, p.cartItemCountSessionId}, RemoveKeys(p));
            if c.settled.Failed? then c
            else if cleared.Rejected? then Effect(c.entries, Failed(Upstream(cleared.reason)))
            else
              var reset := ResetShippingChargesEffect(c.entries, p.sessionId, cartItems);
              FrameWidens(reset.entries, c.entries, {CheckoutKey(p.sessionId)}, RemoveKeys(p));
              reset
          else
            match FormattedCoupons(Prop(response, "appliedCoupons"))
            case Throw(f) => Effect(e, Failed(f))
            case Ok(coupons) =>
              var s := SetCartSessionDataEffect(e, p.cartSessionId, p.wooSessionId,
                                                RemainingCart(coupons, response), decode, nowMs);
              FrameWidens(s.entries, e, {p.cartSessionId}, RemoveKeys(p));
              if s.settled.Failed? then s
              else
                var reset := ResetShippingChargesEffect(s.entries, p.sessionId, cartItems);
                FrameWidens(reset.entries, s.entries, {CheckoutKey(p.sessionId)}, RemoveKeys(p));
                reset
  }

  /**
   * The run got past reading `cartItem.cartId` and the stored cart, and the library
   * answered the removal with `response`.
   */
  predicate RemovalAnswered(e: Entries, p: RemoveRequest, cart: Call -> Reply, response: Js) {
    && !Nullish(p.cartItem)
    && p.cartSessionId in e
    && cart(RemoveCartItem(p.sessionId, p.wooSessionId, Undefined, Prop(p.cartItem, "cartId"))) == Resolved(response)
  }

  /** Without a stored cart, reading its payment intent throws before the library is called (server.js:336-342). */
  lemma RemoveNeedsStoredCart(e: Entries, p: RemoveRequest, cart: Call -> Reply,
                              decode: string -> Option<Claims>, nowMs: int)
    requires !Nullish(p.cartItem) && p.cartSessionId !in e
    ensures RemoveCartEffect(e, p, cart, decode, nowMs) == Effect(e, Failed(CannotReadProperty(Null, "paymentIntentId")))
  {
  }

  /** A falsy response writes nothing (server.js:346). */
  lemma RemoveFalsyResponseWritesNothing(e: Entries, p: RemoveRequest, cart: Call -> Reply,
                                         decode: string -> Option<Claims>, nowMs: int, response: Js)
    requires RemovalAnswered(e, p, cart, response) && !Truthy(response)
    ensures RemoveCartEffect(e, p, cart, decode, nowMs) == Effect(e, Done)
  {
  }

  /**
   * When the library reports an empty cart, the cart key gets the zeroed cart and the
   * items and count keys are deleted, whatever the library's clearCart call does; the
   * run resolves only if that call resolves and the checkout reset succeeds, and the
   * reset works from the items read before the deletion (server.js:347-356, 367).
   */
  lemma RemoveClearsSession(e: Entries, p: RemoveRequest, cart: Call -> Reply,
                            decode: string -> Option<Claims>, nowMs: int, response: Js)
    requires DistinctRemoveKeys(p)
    requires RemovalAnswered(e, p, cart, response) && Truthy(response) && Truthy(Prop(response, "clearCart"))
    requires ExpiresIn(p.wooSessionId, decode, nowMs).Ok?
    ensures var r := RemoveCartEffect(e, p, cart, decode, nowMs);
      && p.cartSessionId in r.entries
      && r.entries[p.cartSessionId] == Entry(ZeroCart, Some(ExpiresIn(p.wooSessionId, decode, nowMs).value))
      && p.cartItemSessionId !in r.entries
      && p.cartItemCountSessionId !in r.entries
      && (r.settled.Done? <==>
            cart(ClearCart(Null, p.wooSessionId)).Resolved? && CompositionFlags(ItemsAt(e, p.cartItemSessionId)).Ok?)
    ensures var r := RemoveCartEffect(e, p, cart, decode, nowMs);
      var ck := CheckoutKey(p.sessionId);
      r.settled.Done? ==>
        && ck in r.entries
        && r.entries[ck]
           == Entry(Serialized(CheckoutRecord(CompositionFlags(ItemsAt(e, p.cartItemSessionId)).value, DocumentAt(e, ck))), None)
  {
    var c := ClearCartSessionDataEffect(e, p.cartSessionId, p.wooSessionId, p.cartItemSessionId,
                                        p.cartItemCountSessionId, decode, nowMs);
    assert DocumentAt(c.entries, CheckoutKey(p.sessionId)) == DocumentAt(e, CheckoutKey(p.sessionId));
  }

  /** The stored remaining cart has the coupons and at most the two totals besides. */
  lemma RemainingCartFields(coupons: seq<Js>, response: Js)
    requires !Nullish(response)
    ensures var c := Serialized(RemainingCart(coupons, response));
      c.Obj? && "coupons" in c.fields && c.fields.Keys <= {"coupons", "subtotal", "totalDiscount"}
  {
  }

  /** The overwrite branch is the cart write followed, if it succeeds, by the checkout reset. */
  lemma RemoveOverwritePath(e: Entries, p: RemoveRequest, cart: Call -> Reply,
                            decode: string -> Option<Claims>, nowMs: int, response: Js)
    requires RemovalAnswered(e, p, cart, response) && Truthy(response) && !Truthy(Prop(response, "clearCart"))
    requires FormattedCoupons(Prop(response, "appliedCoupons")).Ok?
    ensures var coupons := FormattedCoupons(Prop(response, "appliedCoupons")).value;
      var s := SetCartSessionDataEffect(e, p.cartSessionId, p.wooSessionId, RemainingCart(coupons, response), decode, nowMs);
      RemoveCartEffect(e, p, cart, decode, nowMs)
      == if s.settled.Failed? then s else ResetShippingChargesEffect(s.entries, p.sessionId, ItemsAt(e, p.cartItemSessionId))
  {
  }

  /**
   * Otherwise the cart key is wholly replaced by the formatted coupons and the
   * response's totals, dropping every other field, and the items and count keys are
   * left as they were (server.js:357-365).
   */
  lemma RemoveOverwritesCart(e: Entries, p: RemoveRequest, cart: Call -> Reply,
                             decode: string -> Option<Claims>, nowMs: int, response: Js)
    requires DistinctRemoveKeys(p)
    requires RemovalAnswered(e, p, cart, response) && Truthy(response) && !Truthy(Prop(response, "clearCart"))
    requires FormattedCoupons(Prop(response, "appliedCoupons")).Ok?
    requires ExpiresIn(p.wooSessionId, decode, nowMs).Ok?
    ensures var r := RemoveCartEffect(e, p, cart, decode, nowMs);
      var coupons := FormattedCoupons(Prop(response, "appliedCoupons")).value;
      && p.cartSessionId in r.entries
      && r.entries[p.cartSessionId]
         == Entry(Serialized(RemainingCart(coupons, response)), Some(ExpiresIn(p.wooSessionId, decode, nowMs).value))
      && r.entries[p.cartSessionId].value.Obj?
      && "coupons" in r.entries[p.cartSessionId].value.fields
      && r.entries[p.cartSessionId].value.fields.Keys <= {"coupons", "subtotal", "totalDiscount"}
    ensures var r := RemoveCartEffect(e, p, cart, decode, nowMs);
      && (p.cartItemSessionId in r.entries <==> p.cartItemSessionId in e)
      && (p.cartItemSessionId in e ==> r.entries[p.cartItemSessionId] == e[p.cartItemSessionId])
      && (p.cartItemCountSessionId in r.entries <==> p.cartItemCountSessionId in e)
      && (p.cartItemCountSessionId in e ==> r.entries[p.cartItemCountSessionId] == e[p.cartItemCountSessionId])
      && (r.settled.Done? <==> CompositionFlags(ItemsAt(e, p.cartItemSessionId)).Ok?)
  {
    var coupons := FormattedCoupons(Prop(response, "appliedCoupons")).value;
    var s := SetCartSessionDataEffect(e, p.cartSessionId, p.wooSessionId, RemainingCart(coupons, response), decode, nowMs);
    var r := RemoveCartEffect(e, p, cart, decode, nowMs);
    var ck := CheckoutKey(p.sessionId);
    RemoveOverwritePath(e, p, cart, decode, nowMs, response);
    assert r == ResetShippingChargesEffect(s.entries, p.sessionId, ItemsAt(e, p.cartItemSessionId));
    RemainingCartFields(coupons, response);
    FrameKeeps(r.entries, s.entries, {ck}, p.cartSessionId);
    FrameKeeps(r.entries, s.entries, {ck}, p.cartItemSessionId);
    FrameKeeps(r.entries, s.entries, {ck}, p.cartItemCountSessionId);
    FrameKeeps(s.entries, e, {p.cartSessionId}, p.cartItemSessionId);
    FrameKeeps(s.entries, e, {p.cartSessionId}, p.cartItemCountSessionId);
  }

  /** Clearing the session does not look at what the cart key held. */
  lemma ClearIgnoresCartValue(e: Entries, v: Entry, cartKey: string, wooSessionId: Js, itemsKey: string,
                              countKey: string, decode: string -> Option<Claims>, nowMs: int)
    requires cartKey in e
    ensures var c1 := ClearCartSessionDataEffect(e, cartKey, wooSessionId, itemsKey, countKey, decode, nowMs);
      var c2 := ClearCartSessionDataEffect(e[cartKey := v], cartKey, wooSessionId, itemsKey, countKey, decode, nowMs);
      && c1.settled == c2.settled
      && (c1.settled.Done? ==> c1.entries == c2.entries)
  {
  }

  /** Overwriting the cart key does not look at what it held. */
  lemma SetIgnoresCartValue(e: Entries, v: Entry, key: string, wooSessionId: Js, payload: Js,
                            decode: string -> Option<Claims>, nowMs: int)
    requires !payload.Undefined?
    ensures var s1 := SetCartSessionDataEffect(e, key, wooSessionId, payload, decode, nowMs);
      var s2 := SetCartSessionDataEffect(e[key := v], key, wooSessionId, payload, decode, nowMs);
      && s1.settled == s2.settled
      && (s1.settled.Done? ==> s1.entries == s2.entries)
  {
  }

  /** Two stores that differ only at the cart key. */
  lemma DifferOnlyAt(e: Entries, k: string, v: Entry)
    requires k in e
    ensures e - {k} == e[k := v] - {k}
  {
  }

  /**
   * The payment intent handed to the library is read off the unparsed stored string,
   * so what the cart key holds never changes the outcome: only its presence matters
   * (server.js:336-344).
   */
  lemma RemoveIgnoresStoredCart(e: Entries, v: Entry, p: RemoveRequest, cart: Call -> Reply,
                                decode: string -> Option<Claims>, nowMs: int)
    requires p.cartSessionId in e && DistinctRemoveKeys(p)
    ensures var r1 := RemoveCartEffect(e, p, cart, decode, nowMs);
      var r2 := RemoveCartEffect(e[p.cartSessionId := v], p, cart, decode, nowMs);
      r1.settled == r2.settled && r1.entries - {p.cartSessionId} == r2.entries - {p.cartSessionId}
  {
    var e2 := e[p.cartSessionId := v];
    var r1 := RemoveCartEffect(e, p, cart, decode, nowMs);
    var r2 := RemoveCartEffect(e2, p, cart, decode, nowMs);
    DifferOnlyAt(e, p.cartSessionId, v);
    if !Nullish(p.cartItem) {
      var reply := cart(RemoveCartItem(p.sessionId, p.wooSessionId, Undefined, Prop(p.cartItem, "cartId")));
      assert ItemsAt(e2, p.cartItemSessionId) == ItemsAt(e, p.cartItemSessionId);
      if reply.Resolved? && Truthy(reply.value) {
        var response := reply.value;
        if Truthy(Prop(response, "clearCart")) {
          ClearIgnoresCartValue(e, v, p.cartSessionId, p.wooSessionId, p.cartItemSessionId,
                                p.cartItemCountSessionId, decode, nowMs);
          var c1 := ClearCartSessionDataEffect(e, p.cartSessionId, p.wooSessionId, p.cartItemSessionId,
                                               p.cartItemCountSessionId, decode, nowMs);
          var c2 := ClearCartSessionDataEffect(e2, p.cartSessionId, p.wooSessionId, p.cartItemSessionId,
                                               p.cartItemCountSessionId, decode, nowMs);
          assert r1 == (if c1.settled.Failed? then c1
                        else if cart(ClearCart(Null, p.wooSessionId)).Rejected? then Effect(c1.entries, Failed(Upstream(cart(ClearCart(Null, p.wooSessionId)).reason)))
                        else ResetShippingChargesEffect(c1.entries, p.sessionId, ItemsAt(e, p.cartItemSessionId)));
          assert r2 == (if c2.settled.Failed? then c2
                        else if cart(ClearCart(Null, p.wooSessionId)).Rejected? then Effect(c2.entries, Failed(Upstream(cart(ClearCart(Null, p.wooSessionId)).reason)))
                        else ResetShippingChargesEffect(c2.entries, p.sessionId, ItemsAt(e, p.cartItemSessionId)));
        } else if FormattedCoupons(Prop(response, "appliedCoupons")).Ok? {
          var payload := RemainingCart(FormattedCoupons(Prop(response, "appliedCoupons")).value, response);
          SetIgnoresCartValue(e, v, p.cartSessionId, p.wooSessionId, payload, decode, nowMs);
          RemoveOverwritePath(e, p, cart, decode, nowMs, response);
          RemoveOverwritePath(e2, p, cart, decode, nowMs, response);
        }
      }
    }
  }

  /** The removeCart listener body, one store command at a time. */
  method RemoveCart(store: Store, p: RemoveRequest, cart: Call -> Reply,
                    decode: string -> Option<Claims>, nowMs: int) returns (settled: Settled)
    requires store.Valid()
    modifies store
    ensures store.Valid()
    ensures Effect(store.entries, settled) == RemoveCartEffect(old(store.entries), p, cart, decode, nowMs)
  {
    var cartId := Get(p.cartItem, "cartId");
    if cartId.Throw? {
      return Failed(cartId.fault);
    }
    var cartSessionData := store.Get(p.cartSessionId);
    var cartItems := store.GetCartItems(p.cartItemSessionId);
    if cartSessionData.None? {
      return Failed(CannotReadProperty(Null, "paymentIntentId"));
    }
    var reply := cart(RemoveCartItem(p.sessionId, p.wooSessionId, Undefined, cartId.value));
    if reply.Rejected? {
      return Failed(Upstream(reply.reason));
    }
    var response := reply.value;
    if !Truthy(response) {
      return Done;
    }
    if Truthy(Prop(response, "clearCart")) {
      var cleared := cart(ClearCart(Null, p.wooSessionId));
      var s := store.ClearCartSessionData(p.cartSessionId, p.wooSessionId, p.cartItemSessionId,
                                          p.cartItemCountSessionId, decode, nowMs);
      if s.Failed? {
        return s;
      }
      if cleared.Rejected? {
        return Failed(Upstream(cleared.reason));
      }
    } else {
      var coupons := FormattedCoupons(Prop(response, "appliedCoupons"));
      if coupons.Throw? {
        return Failed(coupons.fault);
      }
      var s := store.SetCartSessionData(p.cartSessionId, p.wooSessionId, RemainingCart(coupons.value, response),
                                        decode, nowMs);
      if s.Failed? {
        return s;
      }
    }
    settled := store.ResetShippingCharges(p.sessionId, cartItems);
  }
}
