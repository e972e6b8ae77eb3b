/**
 * The pure helpers of the session bookkeeping in server.js: coupon reshaping,
 * the expiry derived from the session token, the composition flags of the
 * checkout record, and the pieces of the line-item upsert.
 */
module CartHelpers {
  import opened Wrappers
  import opened JsValues
  import opened JsNumbers

  // ---------------------------------------------------------------------------
  // getFormattedCoupons (server.js:300-305)

  /** `{code: c.code, amount: c.discountAmount}` */
  function CouponPair(c: Js): Js
    requires !Nullish(c)
  {
    Obj(map["code" := Prop(c, "code"), "amount" := Prop(c, "discountAmount")])
  }

  /** `cs.map(CouponPair)`: throws at the first coupon that is null or undefined. */
  function MapCoupons(cs: seq<Js>): (r: Result<seq<Js>>)
    ensures r.Ok? <==> forall i :: 0 <= i < |cs| ==> !Nullish(cs[i])
    ensures r.Ok? ==> |r.value| == |cs|
    ensures r.Ok? ==> forall i :: 0 <= i < |cs| ==> r.value[i] == CouponPair(cs[i])
    ensures r.Throw? ==> r.fault == CannotReadProperty(cs[FirstNullish(cs)], "code")
  {
    if cs == [] then Ok([])
    else if Nullish(cs[0]) then Throw(CannotReadProperty(cs[0], "code"))
    else
      var rest :- MapCoupons(cs[1..]);
      Ok([CouponPair(cs[0])] + rest)
  }

  /** The position of the first null or undefined element. */
  function FirstNullish(s: seq<Js>): (i: nat)
    requires exists j :: 0 <= j < |s| && Nullish(s[j])
    ensures i < |s| && Nullish(s[i])
    ensures forall j :: 0 <= j < i ==> !Nullish(s[j])
  {
    if Nullish(s[0]) then 0
    else
      assert exists j :: 0 <= j < |s[1..]| && Nullish(s[1..][j]) by {
        var j :| 0 <= j < |s| && Nullish(s[j]);
        assert s[1..][j - 1] == s[j];
      }
      1 + FirstNullish(s[1..])
  }

  /**
   * `getFormattedCoupons(appliedCoupons = [])`: the default applies to undefined
   * only; null and every other value that is not an array make `map` throw.
   */
  function FormattedCoupons(applied: Js): (r: Result<seq<Js>>)
    ensures applied.Undefined? ==> r == Ok([])
    ensures !applied.Undefined? && !applied.Arr? ==> r == Throw(NoMethod(applied, "map", "appliedCoupons.map"))
    ensures applied.Arr? ==> (r.Ok? <==> forall i :: 0 <= i < |applied.elems| ==> !Nullish(applied.elems[i]))
    ensures r.Ok? && applied.Arr? ==> |r.value| == |applied.elems|
    ensures r.Ok? && applied.Arr? ==>
      forall i :: 0 <= i < |r.value| ==>
        r.value[i] == Obj(map["code" := Prop(applied.elems[i], "code"),
                              "amount" := Prop(applied.elems[i], "discountAmount")])
  {
    match applied
    case Undefined => Ok([])
    case Arr(cs) => MapCoupons(cs)
    case _ => Throw(NoMethod(applied, "map", "appliedCoupons.map"))
  }

  // ---------------------------------------------------------------------------
  // getParsedJwt / getExpiresIn (server.js:112-129)

  /** The claims of a session token whose middle segment decodes to an object with a numeric `exp`. */
  datatype Claims = Claims(exp: int)

  /** The text up to the first '.', or all of it. */
  function BeforeDot(s: string): (r: string)
    ensures '.' !in r
    ensures r <= s
    ensures r == s || (|r| < |s| && s[|r|] == '.')
  {
    if s == [] || s[0] == '.' then [] else [s[0]] + BeforeDot(s[1..])
  }

  /** The text after the first '.', if there is one. */
  function AfterDot(s: string): (r: Option<string>)
    ensures r.None? <==> '.' !in s
    ensures r.Some? ==> s == BeforeDot(s) + "." + r.value
  {
    if s == [] then None
    else if s[0] == '.' then Some(s[1..])
    else
      var r := AfterDot(s[1..]);
      assert r.Some? ==> s == [s[0]] + s[1..];
      r
  }

  /**
   * `token.split(".")[1]`: undefined when the token has no '.'; otherwise the text
   * between the first '.' and the next one (or the end).
   */
  function MiddleSegment(token: string): (r: Option<string>)
    ensures r.None? <==> '.' !in token
    ensures r.Some? ==> '.' !in r.value && BeforeDot(token) + "." + r.value <= token
    ensures r.Some? ==> var n := |BeforeDot(token)| + 1 + |r.value|; n == |token| || token[n] == '.'
  {
    match AfterDot(token)
    case None => None
    case Some(rest) => Some(BeforeDot(rest))
  }

  lemma {:induction false} BeforeDotStopsAtDot(a: string, b: string)
    requires '.' !in a
    ensures BeforeDot(a + "." + b) == a
  {
    if a != [] {
      assert (a + "." + b)[1..] == a[1..] + "." + b;
      BeforeDotStopsAtDot(a[1..], b);
    }
  }

  lemma {:induction false} AfterDotSkipsHead(a: string, b: string)
    requires '.' !in a
    ensures AfterDot(a + "." + b) == Some(b)
  {
    if a == [] {
      assert a + "." + b == ['.'] + b;
    } else {
      assert (a + "." + b)[1..] == a[1..] + "." + b;
      AfterDotSkipsHead(a[1..], b);
    }
  }

  /** For a token shaped header.payload.signature the middle segment is the payload. */
  lemma MiddleSegmentOfToken(header: string, payload: string, signature: string)
    requires '.' !in header && '.' !in payload
    ensures MiddleSegment(header + "." + payload + "." + signature) == Some(payload)
  {
    assert header + "." + payload + "." + signature == header + "." + (payload + "." + signature);
    AfterDotSkipsHead(header, payload + "." + signature);
    BeforeDotStopsAtDot(payload, signature);
  }

  /** For a token shaped head.rest with no further '.', the second segment is the whole rest. */
  lemma MiddleSegmentOfTwoParts(head: string, rest: string)
    requires '.' !in head && '.' !in rest
    ensures MiddleSegment(head + "." + rest) == Some(rest)
  {
    AfterDotSkipsHead(head, rest);
  }

  /** A token without a '.' has no middle segment, so it carries no claims. */
  lemma NoDotNoSegment(token: string)
    requires '.' !in token
    ensures MiddleSegment(token) == None
  {
  }

  /**
   * `getParsedJwt(token)`: `decode` stands for `JSON.parse(atob(segment))` followed
   * by reading a numeric `exp`; any failure inside the try block (no `split` on a
   * non-string, no middle segment, bad base64, bad JSON) yields undefined (None).
   */
  function ParsedJwt(token: Js, decode: string -> Option<Claims>): Option<Claims> {
    if !token.Str? then None
    else
      match MiddleSegment(token.s)
      case None => None
      case Some(segment) => decode(segment)
  }

  /**
   * A token that is no string (no `split`) or has no '.' carries no claims; any
   * claims come from decoding the second segment.
   */
  lemma ParsedJwtNeedsSegment(token: Js, decode: string -> Option<Claims>)
    ensures !token.Str? ==> ParsedJwt(token, decode).None?
    ensures token.Str? && '.' !in token.s ==> ParsedJwt(token, decode).None?
    ensures ParsedJwt(token, decode).Some? ==> ParsedJwt(token, decode) == decode(MiddleSegment(token.s).value)
  {
  }

  /** The claims of a token `header.payload.signature` are those its payload decodes to. */
  lemma ParsedJwtOfToken(header: string, payload: string, signature: string, decode: string -> Option<Claims>)
    requires '.' !in header && '.' !in payload
    ensures ParsedJwt(Str(header + "." + payload + "." + signature), decode) == decode(payload)
  {
    MiddleSegmentOfToken(header, payload, signature);
  }

  /**
   * `getExpiresIn(token)` at `Date.now() == nowMs`: seconds from the current whole
   * second to `exp`, not clamped; without claims, reading `exp` throws.
   */
  function ExpiresIn(token: Js, decode: string -> Option<Claims>, nowMs: int): (r: Result<int>)
    ensures r.Ok? <==> ParsedJwt(token, decode).Some?
    ensures r.Throw? ==> r.fault == CannotReadProperty(Undefined, "exp")
    ensures r.Ok? ==> token.Str?
    ensures r.Ok? ==>
      var exp := ParsedJwt(token, decode).value.exp;
      (exp - r.value) * 1000 <= nowMs < (exp - r.value + 1) * 1000
  {
    match ParsedJwt(token, decode)
    case None => Throw(CannotReadProperty(Undefined, "exp"))
    case Some(claims) => Ok(claims.exp - nowMs / 1000)
  }

  /** A token whose `exp` has passed gives a TTL of zero or less: nothing clamps it. */
  lemma ExpiredTokenTtlNotClamped(token: Js, decode: string -> Option<Claims>, nowMs: int)
    requires ParsedJwt(token, decode).Some?
    requires ParsedJwt(token, decode).value.exp * 1000 <= nowMs
    ensures ExpiresIn(token, decode, nowMs).Ok? && ExpiresIn(token, decode, nowMs).value <= 0
  {
  }

  /** A token expiring 120 seconds after the current whole second gives a TTL of 120. */
  lemma TtlPropagation(token: Js, decode: string -> Option<Claims>, nowMs: int)
    requires ParsedJwt(token, decode) == Some(Claims(nowMs / 1000 + 120))
    ensures ExpiresIn(token, decode, nowMs) == Ok(120)
  {
  }

  // ---------------------------------------------------------------------------
  // The composition flags of resetShippingCharges (server.js:96-100)

  const EventTicket := Str("EVENTTICKET")

  /** `items.filter(keep).length`, for a callback that can throw. */
  function CountKept(items: seq<Js>, keep: Js -> Result<bool>): (r: Result<nat>)
    ensures r.Ok? <==> forall i :: 0 <= i < |items| ==> keep(items[i]).Ok?
    ensures r.Ok? ==> r.value <= |items|
    ensures r.Ok? ==> (r.value > 0 <==> exists i :: 0 <= i < |items| && keep(items[i]) == Ok(true))
  {
    if items == [] then Ok(0)
    else
      var head :- keep(items[0]);
      var rest :- CountKept(items[1..], keep);
      assert forall i :: 1 <= i < |items| ==> items[1..][i - 1] == items[i];
      Ok(if head then rest + 1 else rest)
  }

  /** `ci.type !== "EVENTTICKET"` */
  function IsProductItem(ci: Js): Result<bool> {
    var t :- Get(ci, "type");
    Ok(!StrictEquals(t, EventTicket))
  }

  /** `ci.type === "EVENTTICKET" && ci.price > 0` */
  function IsPricedClassItem(ci: Js): Result<bool> {
    var t :- Get(ci, "type");
    if !StrictEquals(t, EventTicket) then Ok(false) else Ok(IsPositive(Prop(ci, "price")))
  }

  datatype Flags = Flags(hasProducts: bool, hasPricedClass: bool)

  /**
   * `hasProducts` and `hasPricedClass`, each a filter over the items whose length
   * is compared with 0; a value without `filter`, or a null item, throws.
   */
  function CompositionFlags(cartItems: Js): (r: Result<Flags>)
    ensures r.Ok? <==> cartItems.Arr? && forall i :: 0 <= i < |cartItems.elems| ==> !Nullish(cartItems.elems[i])
    ensures !cartItems.Arr? ==> r == Throw(NoMethod(cartItems, "filter", "cartItems.filter"))
    ensures r.Ok? ==>
      (r.value.hasProducts <==>
        exists i :: 0 <= i < |cartItems.elems| && !StrictEquals(Prop(cartItems.elems[i], "type"), EventTicket))
    ensures r.Ok? ==>
      (r.value.hasPricedClass <==>
        exists i :: 0 <= i < |cartItems.elems| &&
          StrictEquals(Prop(cartItems.elems[i], "type"), EventTicket) && IsPositive(Prop(cartItems.elems[i], "price")))
  {
    if !cartItems.Arr? then Throw(NoMethod(cartItems, "filter", "cartItems.filter"))
    else
      var products :- CountKept(cartItems.elems, IsProductItem);
      var priced :- CountKept(cartItems.elems, IsPricedClassItem);
      Ok(Flags(products > 0, priced > 0))
  }

  /** One SIMPLE item and one free EVENTTICKET item: products, but no priced class. */
  lemma FlagsOfSimpleAndFreeTicket()
    ensures CompositionFlags(Arr([Obj(map["type" := Str("SIMPLE"), "price" := Num(5.0)]),
                                  Obj(map["type" := Str("EVENTTICKET"), "price" := Num(0.0)])]))
         == Ok(Flags(true, false))
  {
    var items := [Obj(map["type" := Str("SIMPLE"), "price" := Num(5.0)]),
                  Obj(map["type" := Str("EVENTTICKET"), "price" := Num(0.0)])];
    assert !StrictEquals(Prop(items[0], "type"), EventTicket);
    assert forall i :: 0 <= i < 2 ==> !(StrictEquals(Prop(items[i], "type"), EventTicket) && IsPositive(Prop(items[i], "price")));
  }

  /** A single ticket whose price compares above 0 is a priced class, and no product. */
  lemma FlagsOfOnePricedTicket(item: Js)
    requires item.Obj? && "type" in item.fields && "price" in item.fields
    requires item.fields["type"] == EventTicket && IsPositive(item.fields["price"])
    ensures CompositionFlags(Arr([item])) == Ok(Flags(false, true))
  {
    assert IsProductItem(item) == Ok(false);
    assert IsPricedClassItem(item) == Ok(true);
    assert [item][0] == item;
  }

  /** A ticket whose price is the text "5" is a priced class: `>` converts the text to a number. */
  lemma FlagsOfTextPricedTicket()
    ensures CompositionFlags(Arr([Obj(map["type" := EventTicket, "price" := Str("5")])])) == Ok(Flags(false, true))
  {
    NumericTextPrices();
    FlagsOfOnePricedTicket(Obj(map["type" := EventTicket, "price" := Str("5")]));
  }

  /** An empty item list has neither flag. */
  lemma FlagsOfEmptyList()
    ensures CompositionFlags(Arr([])) == Ok(Flags(false, false))
  {
  }

  // ---------------------------------------------------------------------------
  // The line-item upsert of the addToCart listener (server.js:198-243)

  /** `ci.id === dbId`, for an item whose properties can be read. */
  predicate HasId(ci: Js, dbId: Js)
    requires !Nullish(ci)
  {
    StrictEquals(Prop(ci, "id"), dbId)
  }

  /** No item in `items[from..upto]` is null, undefined, or has the id. */
  predicate NoneMatch(items: seq<Js>, dbId: Js, from: nat, upto: nat)
    requires from <= upto <= |items|
  {
    forall j :: from <= j < upto ==> !Nullish(items[j]) && !HasId(items[j], dbId)
  }

  /**
   * `items.find((ci) => ci.id === dbId)`, searched from position `from`, as the
   * position found: the first matching item, unless a null item comes before it.
   */
  function FindById(items: seq<Js>, dbId: Js, from: nat): (r: Result<Option<nat>>)
    requires from <= |items|
    decreases |items| - from
    ensures r.Ok? && r.value.Some? ==>
      var i := r.value.value;
      from <= i < |items| && !Nullish(items[i]) && HasId(items[i], dbId) && NoneMatch(items, dbId, from, i)
    ensures r.Ok? && r.value.None? ==> NoneMatch(items, dbId, from, |items|)
    ensures r.Throw? ==>
      exists i :: from <= i < |items| && Nullish(items[i]) && NoneMatch(items, dbId, from, i) &&
        r.fault == CannotReadProperty(items[i], "id")
  {
    if from == |items| then Ok(None)
    else if Nullish(items[from]) then Throw(CannotReadProperty(items[from], "id"))
    else if HasId(items[from], dbId) then Ok(Some(from))
    else FindById(items, dbId, from + 1)
  }

  /** `a` is `b` with some elements left out, order kept. */
  predicate IsSubsequence(a: seq<Js>, b: seq<Js>)
    decreases |b|
  {
    if a == [] then true
    else if b == [] then false
    else if a[0] == b[0] then IsSubsequence(a[1..], b[1..])
    else IsSubsequence(a, b[1..])
  }

  /** Every element of a subsequence is an element of the whole. */
  lemma {:induction false} SubsequenceMembers(a: seq<Js>, b: seq<Js>)
    requires IsSubsequence(a, b)
    ensures forall x :: x in a ==> x in b
    decreases |b|
  {
    if a == [] || b == [] {
    } else if a[0] == b[0] {
      SubsequenceMembers(a[1..], b[1..]);
      forall x | x in a ensures x in b {
        if x != a[0] {
          assert x in a[1..];
        }
      }
    } else {
      SubsequenceMembers(a, b[1..]);
    }
  }

  /** `items.filter((ci) => ci.id !== dbId)` */
  function WithoutId(items: seq<Js>, dbId: Js): (r: Result<seq<Js>>)
    ensures r.Ok? <==> forall i :: 0 <= i < |items| ==> !Nullish(items[i])
    ensures r.Throw? ==> r.fault == CannotReadProperty(items[FirstNullish(items)], "id")
    ensures r.Ok? ==> IsSubsequence(r.value, items)
    ensures r.Ok? ==> forall x :: x in r.value ==> !Nullish(x) && !HasId(x, dbId)
    ensures r.Ok? ==> forall i :: 0 <= i < |items| && !HasId(items[i], dbId) ==> items[i] in r.value
  {
    if items == [] then Ok([])
    else if Nullish(items[0]) then Throw(CannotReadProperty(items[0], "id"))
    else
      var rest :- WithoutId(items[1..], dbId);
      assert forall i :: 1 <= i < |items| ==> items[1..][i - 1] == items[i];
      if HasId(items[0], dbId) then
        assert rest != [] ==> rest[0] != items[0];
        Ok(rest)
      else
        assert ([items[0]] + rest)[1..] == rest;
        Ok([items[0]] + rest)
  }

  /**
   * The filter keeps every other item exactly as often as the list held it
   * and drops every copy of an item carrying the id.
   */
  lemma {:induction false} WithoutIdCounts(items: seq<Js>, dbId: Js)
    requires WithoutId(items, dbId).Ok?
    ensures forall x :: multiset(WithoutId(items, dbId).value)[x]
                        == if !Nullish(x) && !HasId(x, dbId) then multiset(items)[x] else 0
  {
    if items != [] {
      var rest := WithoutId(items[1..], dbId).value;
      WithoutIdCounts(items[1..], dbId);
      assert items == [items[0]] + items[1..];
      assert multiset(items) == multiset{items[0]} + multiset(items[1..]);
      assert multiset([items[0]] + rest) == multiset{items[0]} + multiset(rest);
    }
  }

  /** The transactional fields the commerce library reports for the line item it added. */
  const UpstreamItemFields: set<string> :=
    {"cartId", "quantity", "price", "stockQuantity", "stockStatus", "width", "height", "length", "weight"}

  /**
   * `newCartItem`: the library's line-item fields plus the requested variation.
   * Building it reads `cartItem.cartId` first, which throws when the response had no item.
   */
  function NewCartItem(cartItem: Js, variation: Js): (r: Result<Js>)
    ensures r.Ok? <==> !Nullish(cartItem)
    ensures r.Throw? ==> r.fault == CannotReadProperty(cartItem, "cartId")
    ensures r.Ok? ==> r.value.Obj? && r.value.fields.Keys == UpstreamItemFields + {"variation"}
    ensures r.Ok? ==> r.value.fields["variation"] == variation
    ensures r.Ok? ==> forall f :: f in UpstreamItemFields ==> r.value.fields[f] == Prop(cartItem, f)
  {
    if Nullish(cartItem) then Throw(CannotReadProperty(cartItem, "cartId"))
    else
      assert "variation" !in UpstreamItemFields;
      Ok(Obj((map f | f in UpstreamItemFields :: Prop(cartItem, f))["variation" := variation]))
  }

  /**
   * A library item that is an array still builds a line item: its `length` is the
   * array's length and every other library field is undefined.
   */
  lemma NewCartItemOfArray(es: seq<Js>, variation: Js)
    ensures var r := NewCartItem(Arr(es), variation);
      && r.Ok?
      && r.value.fields["length"] == Num(|es| as real)
      && forall f :: f in UpstreamItemFields && f != "length" ==> r.value.fields[f].Undefined?
  {
  }

  /** The new line item carries no `id`, so merging it keeps the stored item's id. */
  lemma NewCartItemHasNoId(cartItem: Js, variation: Js)
    requires !Nullish(cartItem)
    ensures "id" !in NewCartItem(cartItem, variation).value.fields
  {
    assert "id" !in UpstreamItemFields + {"variation"};
  }

  /** `Object.assign({}, cached, incoming)`: the incoming fields win. */
  function Assigned(cached: Js, incoming: Js): Js {
    Obj(OwnFields(cached) + OwnFields(incoming))
  }

  /** The merged item has every field of the incoming one, and every other field of the cached one. */
  lemma AssignedFields(cached: Js, incoming: Js)
    ensures Assigned(cached, incoming).fields.Keys == OwnFields(cached).Keys + OwnFields(incoming).Keys
    ensures forall k :: k in OwnFields(incoming) ==> Assigned(cached, incoming).fields[k] == OwnFields(incoming)[k]
    ensures forall k :: k in OwnFields(cached) && k !in OwnFields(incoming) ==>
      Assigned(cached, incoming).fields[k] == OwnFields(cached)[k]
  {
  }

  // ---------------------------------------------------------------------------
  // Records written by the listeners

  /**
   * `{...oldCart, ...cartPayload, sessionId, wooSessionId}` (server.js:176-188): the
   * stored cart overlaid with the response's totals and coupons, then the session
   * id, then the session token of the request.
   */
  function NewCart(oldCart: Js, response: Js, sessionId: string, wooSessionId: Js): Js
    requires !Nullish(response)
  {
    Obj(OwnFields(oldCart)
        + map["subtotal" := Prop(response, "subtotal"),
              "totalDiscount" := Prop(response, "totalDiscount"),
              "coupons" := Prop(response, "appliedCoupons"),
              "wooSessionId" := Prop(response, "wooSessionId")]
        + map["sessionId" := Str(sessionId)]
        + map["wooSessionId" := wooSessionId])
  }

  /** The keys of the new cart that do not come from the stored one. */
  const CartOverlay: set<string> := {"subtotal", "totalDiscount", "coupons", "wooSessionId", "sessionId"}

  /**
   * What a reader finds under the cart key after it is written: the session id and
   * the request's token, the response's totals and applied coupons, as stored,
   * where they are defined, and every other field of the stored cart as it was.
   */
  lemma StoredCartFields(oldCart: Js, response: Js, sessionId: string, wooSessionId: Js)
    requires !Nullish(response) && IsJson(oldCart) && IsJson(wooSessionId)
    ensures var c := Serialized(NewCart(oldCart, response, sessionId, wooSessionId));
      && c.Obj?
      && c.fields["sessionId"] == Str(sessionId)
      && c.fields["wooSessionId"] == wooSessionId
      && ("subtotal" in c.fields <==> !Prop(response, "subtotal").Undefined?)
      && ("totalDiscount" in c.fields <==> !Prop(response, "totalDiscount").Undefined?)
      && ("coupons" in c.fields <==> !Prop(response, "appliedCoupons").Undefined?)
      && (!Prop(response, "subtotal").Undefined? ==> c.fields["subtotal"] == Serialized(Prop(response, "subtotal")))
      && (!Prop(response, "totalDiscount").Undefined? ==>
            c.fields["totalDiscount"] == Serialized(Prop(response, "totalDiscount")))
      && (!Prop(response, "appliedCoupons").Undefined? ==>
            c.fields["coupons"] == Serialized(Prop(response, "appliedCoupons")))
      && (forall k :: k in OwnFields(oldCart) && k !in CartOverlay ==> k in c.fields && c.fields[k] == OwnFields(oldCart)[k])
      && (forall k :: k in c.fields ==> k in CartOverlay || k in OwnFields(oldCart))
  {
    var n := NewCart(oldCart, response, sessionId, wooSessionId);
    NewCartFields(oldCart, response, sessionId, wooSessionId);
    SerializedKeepsField(n.fields, "sessionId");
    SerializedKeepsField(n.fields, "wooSessionId");
    forall k | k in OwnFields(oldCart) && k !in CartOverlay
      ensures k in Serialized(n).fields && Serialized(n).fields[k] == OwnFields(oldCart)[k]
    {
      SerializedKeepsField(n.fields, k);
    }
  }

  /** The new cart before it is stored: the overlay keys on top of the stored cart's. */
  lemma NewCartFields(oldCart: Js, response: Js, sessionId: string, wooSessionId: Js)
    requires !Nullish(response)
    ensures var n := NewCart(oldCart, response, sessionId, wooSessionId);
      && n.fields.Keys == OwnFields(oldCart).Keys + CartOverlay
      && n.fields["sessionId"] == Str(sessionId)
      && n.fields["wooSessionId"] == wooSessionId
      && n.fields["subtotal"] == Prop(response, "subtotal")
      && n.fields["totalDiscount"] == Prop(response, "totalDiscount")
      && n.fields["coupons"] == Prop(response, "appliedCoupons")
      && (forall k :: k in OwnFields(oldCart) && k !in CartOverlay ==> n.fields[k] == OwnFields(oldCart)[k])
  {
  }

  /**
   * The checkout record of resetShippingCharges (server.js:102-109): the computed
   * flags, overridden by whatever the stored record holds, then the cleared
   * shipping-charge cache.
   */
  function CheckoutRecord(flags: Flags, checkout: Js): Js {
    Obj(map["hasProducts" := Bool(flags.hasProducts), "hasPricedClass" := Bool(flags.hasPricedClass)]
        + OwnFields(checkout)
        + map["shippingCharges" := Arr([]),
              "shippingChargesTimeStamp" := Null,
              "shippingChargeFetchSuccess" := Bool(false)])
  }

  /** The keys resetShippingCharges always writes itself. */
  const ShippingCacheFields: set<string> := {"shippingCharges", "shippingChargesTimeStamp", "shippingChargeFetchSuccess"}

  /**
   * The record the reset writes is plain JSON (it is stored as it is) and holds an
   * emptied, unfetched shipping cache; the flags of the stored record where it has
   * them, otherwise the computed ones; every other stored field as it was.
   */
  lemma StoredCheckoutFields(flags: Flags, checkout: Js)
    requires IsJson(checkout)
    ensures var c := CheckoutRecord(flags, checkout);
      && IsJson(c)
      && c.fields.Keys == OwnFields(checkout).Keys + {"hasProducts", "hasPricedClass"} + ShippingCacheFields
      && c.fields["shippingCharges"] == Arr([])
      && c.fields["shippingChargesTimeStamp"] == Null
      && c.fields["shippingChargeFetchSuccess"] == Bool(false)
      && c.fields["hasProducts"] ==
           (if "hasProducts" in OwnFields(checkout) then OwnFields(checkout)["hasProducts"] else Bool(flags.hasProducts))
      && c.fields["hasPricedClass"] ==
           (if "hasPricedClass" in OwnFields(checkout) then OwnFields(checkout)["hasPricedClass"] else Bool(flags.hasPricedClass))
      && (forall k :: k in OwnFields(checkout) && k !in ShippingCacheFields ==> c.fields[k] == OwnFields(checkout)[k])
  {
    CheckoutRecordKeys(flags, checkout);
    CheckoutRecordIsJson(flags, checkout);
  }

  /** The keys of the checkout record: the stored ones, both flags and the shipping cache. */
  lemma CheckoutRecordKeys(flags: Flags, checkout: Js)
    ensures CheckoutRecord(flags, checkout).fields.Keys
         == OwnFields(checkout).Keys + {"hasProducts", "hasPricedClass"} + ShippingCacheFields
  {
    var r := CheckoutRecord(flags, checkout);
    var own := OwnFields(checkout);
    forall k ensures k in r.fields <==> k in own || k in {"hasProducts", "hasPricedClass"} || k in ShippingCacheFields { }
  }

  /** A record built from a JSON checkout record is JSON. */
  lemma CheckoutRecordIsJson(flags: Flags, checkout: Js)
    requires IsJson(checkout)
    ensures IsJson(CheckoutRecord(flags, checkout))
  {
    var r := CheckoutRecord(flags, checkout);
    var own := OwnFields(checkout);
    assert forall k :: k in own ==> IsJson(own[k]);
    forall k | k in r.fields ensures IsJson(r.fields[k]) {
      if k !in ShippingCacheFields && k in own {
        assert r.fields[k] == own[k];
      }
    }
  }

  /** The zeroed cart of clearCartSessionData (server.js:287-291). */
  const ZeroCart: Js := Obj(map["coupons" := Arr([]), "subtotal" := Num(0.0), "totalDiscount" := Num(0.0)])

  lemma ZeroCartIsJson()
    ensures IsJson(ZeroCart) && Serialized(ZeroCart) == ZeroCart
  {
    SerializedKeepsJson(ZeroCart);
  }
}
