/** `customerService`: profile updates, the cart and order placement on
    `users/customer/<userId>`. */
module CustomerService {
  import opened Json
  import opened Paths
  import opened Store
  import opened JsObjects
  import opened Registration

  /** `registerCustomer` with the account id the identity provider issues
      (`None` when it refuses) and the download URL of the uploaded photo. The
      stored record is a spread copy of the customer taken before `photoURL`
      is assigned; the copy shares the `userData` object, so the stored
      `userData` does carry the new URL. Every failure is caught and logged,
      and the caller gets `undefined`. */
  method RegisterCustomer(db: Store, customer: JsObject, account: Option<string>, photoUrl: string) returns (userId: Option<string>)
    requires customer.TwoLevel()
    modifies db, customer.Children()
    ensures customer.props == old(customer.props) && customer.TwoLevel()
    ensures !customer.RefersAt("userData") || account.None? ==>
      userId.None? && db.docs == old(db.docs) && db.blobs == old(db.blobs)
    ensures !customer.RefersAt("userData") || account.None? ==>
      forall c :: c in customer.Children() ==> c.props == old(c.props)
    ensures customer.RefersAt("userData") && account.Some? ==>
      forall c :: c in customer.Children() && c != customer.props["userData"].target ==> c.props == old(c.props)
    ensures customer.RefersAt("userData") && account.Some? ==>
      var uid := account.value;
      var userData := customer.props["userData"].target;
      && userId == Some(uid)
      && userData.props == old(userData.props)["photoURL" := Plain(Str(photoUrl))]
      && db.blobs == old(db.blobs)[BlobPath(CustomerPhotos, uid) := photoUrl]
      && db.docs == old(db.docs)[CustomerDoc(uid) := old(customer.SerializeAssigned(userData, "photoURL", Str(photoUrl)))]
      && db.docs[CustomerDoc(uid)]["userData"] == Obj(old(userData.Fields())["photoURL" := Str(photoUrl)])
  {
    // destructuring `Customer.userData` throws when it is missing; a primitive
    // leaves `email` undefined, which the identity provider refuses
    if !customer.RefersAt("userData") {
      return None;
    }
    var copy := new JsObject(customer.props);
    if account.None? {
      return None;
    }
    var uid := account.value;
    UploadAndStoreShared(db, customer, copy, "userData", "photoURL", BlobPath(CustomerPhotos, uid), CustomerDoc(uid), photoUrl);
    userId := Some(uid);
  }

  const AddedToCartMessage := "Product added to the cart successfully"
  const CartUpdatedMessage := "Cart updated successfully"
  const OrderPlacedMessage := "Order placed successfully"
  const CustomerUpdatedMessage := "Customer updated successfully"
  const CustomerDeletedMessage := "Customer deleted successfully"

  /** A cart entry `{ productId, quantity, addedToCart }`. */
  function CartEntry(productId: string, quantity: int, addedToCart: string): Value {
    Obj(map["productId" := Str(productId), "quantity" := Num(quantity), "addedToCart" := Str(addedToCart)])
  }

  /** The record `addToCart` hands to `set`: `{ productCart: updatedCart }`,
      where the cart is the stored one followed by the new entry. Being a whole
      record, it keeps no other field. */
  function AddToCartRecord(stored: Record, productId: string, quantity: int, now: string): (r: Result<Record>)
    ensures r.Err? <==> ExistingList(stored, "productCart").Err?
    ensures r.Ok? ==> r.value.Keys == {"productCart"} && r.value["productCart"].List?
    ensures r.Ok? ==>
      var before := ExistingList(stored, "productCart").value;
      var cart := r.value["productCart"].items;
      |cart| == |before| + 1 && cart[..|before|] == before &&
      cart[|before|] == CartEntry(productId, quantity, now)
  {
    match Appended(stored, "productCart", CartEntry(productId, quantity, now))
    case Ok(cart) => Ok(map["productCart" := List(cart)])
    case Err(e) => Err(e)
  }

  /** The patch `placeOrder` hands to `update`: the stored orders followed by
      the new one, and an empty cart. */
  function PlaceOrderPatch(stored: Record, order: Value): (r: Result<Record>)
    ensures r.Err? <==> ExistingList(stored, "orders").Err?
    ensures r.Ok? ==> r.value.Keys == {"orders", "productCart"}
    ensures r.Ok? ==> r.value["productCart"] == List([]) && r.value["orders"].List?
    ensures r.Ok? ==>
      var before := ExistingList(stored, "orders").value;
      var orders := r.value["orders"].items;
      |orders| == |before| + 1 && orders[..|before|] == before && orders[|before|] == order
  {
    match Appended(stored, "orders", order)
    case Ok(orders) => Ok(map["orders" := List(orders), "productCart" := List([])])
    case Err(e) => Err(e)
  }

  /** What the two write modes do to a field the operation does not name:
      `addToCart`'s `set` drops it, `placeOrder`'s `update` keeps it. */
  lemma CartSetDropsFieldOrderUpdateKeepsIt(stored: Record, f: string, productId: string, quantity: int, now: string, order: Value)
    requires f in stored && f != "productCart" && f != "orders"
    requires ExistingList(stored, "productCart").Ok? && ExistingList(stored, "orders").Ok?
    ensures AddToCartRecord(stored, productId, quantity, now).Ok?
    ensures f !in AddToCartRecord(stored, productId, quantity, now).value
    ensures PlaceOrderPatch(stored, order).Ok?
    ensures var placed := Merge(stored, PlaceOrderPatch(stored, order).value);
      f in placed && placed[f] == stored[f]
  {
  }

  /** The record `placeOrder` leaves in the store: orders one longer with the
      new order last, an empty cart, every other field as it was. */
  lemma PlaceOrderEffect(stored: Record, order: Value)
    requires PlaceOrderPatch(stored, order).Ok?
    ensures var placed := Merge(stored, PlaceOrderPatch(stored, order).value);
      var before := ExistingList(stored, "orders").value;
      && placed.Keys == stored.Keys + {"orders", "productCart"}
      && placed["productCart"] == List([])
      && placed["orders"] == List(before + [order])
      && (forall f :: f in stored && f != "orders" && f != "productCart" ==> placed[f] == stored[f])
  {
    var before := ExistingList(stored, "orders").value;
    var orders := PlaceOrderPatch(stored, order).value["orders"].items;
    assert orders == orders[..|before|] + [orders[|before|]];
  }

  /** `updateCustomer`: shallow merge of the given fields. */
  method UpdateCustomer(db: Store, userId: string, patch: Record) returns (msg: string)
    modifies db
    ensures db.docs == old(db.docs)[CustomerDoc(userId) := Merge(Lookup(old(db.docs), CustomerDoc(userId)), patch)]
    ensures db.blobs == old(db.blobs)
    ensures msg == CustomerUpdatedMessage
  {
    db.Update(CustomerDoc(userId), patch);
    msg := CustomerUpdatedMessage;
  }

  /** `addToCart`: read the record, append an entry to its cart, write back
      `{ productCart }` with `set`. An absent record throws before any write. */
  method AddToCart(db: Store, userId: string, productId: string, quantity: int, now: string) returns (r: Result<string>)
    modifies db
    ensures db.blobs == old(db.blobs)
    ensures CustomerDoc(userId) !in old(db.docs) ==> r == Err(NullValue) && db.docs == old(db.docs)
    ensures CustomerDoc(userId) in old(db.docs) ==>
      var written := AddToCartRecord(old(db.docs)[CustomerDoc(userId)], productId, quantity, now);
      && (written.Err? ==> r == Err(written.error) && db.docs == old(db.docs))
      && (written.Ok? ==> r == Ok(AddedToCartMessage) && db.docs == old(db.docs)[CustomerDoc(userId) := written.value])
  {
    var user := db.Get(CustomerDoc(userId));
    if user.None? {
      return Err(NullValue);
    }
    var written := AddToCartRecord(user.value, productId, quantity, now);
    if written.Err? {
      return Err(written.error);
    }
    db.Set(CustomerDoc(userId), written.value);
    r := Ok(AddedToCartMessage);
  }

  /** `updateCart`: replace the cart with `update`, keeping the other fields. */
  method UpdateCart(db: Store, userId: string, cart: seq<Value>) returns (msg: string)
    modifies db
    ensures var p := CustomerDoc(userId);
      db.docs == old(db.docs)[p := Merge(Lookup(old(db.docs), p), map["productCart" := List(cart)])]
    ensures db.blobs == old(db.blobs)
    ensures msg == CartUpdatedMessage
  {
    db.Update(CustomerDoc(userId), map["productCart" := List(cart)]);
    msg := CartUpdatedMessage;
  }

  /** `placeOrder`: read the record, then `update` it with the longer order
      list and an empty cart. An absent record throws before any write. */
  method PlaceOrder(db: Store, userId: string, order: Value) returns (r: Result<string>)
    modifies db
    ensures db.blobs == old(db.blobs)
    ensures CustomerDoc(userId) !in old(db.docs) ==> r == Err(NullValue) && db.docs == old(db.docs)
    ensures CustomerDoc(userId) in old(db.docs) ==>
      var stored := old(db.docs)[CustomerDoc(userId)];
      var patch := PlaceOrderPatch(stored, order);
      && (patch.Err? ==> r == Err(patch.error) && db.docs == old(db.docs))
      && (patch.Ok? ==> r == Ok(OrderPlacedMessage) && db.docs == old(db.docs)[CustomerDoc(userId) := Merge(stored, patch.value)])
  {
    var user := db.Get(CustomerDoc(userId));
    if user.None? {
      return Err(NullValue);
    }
    var patch := PlaceOrderPatch(user.value, order);
    if patch.Err? {
      return Err(patch.error);
    }
    db.Update(CustomerDoc(userId), patch.value);
    r := Ok(OrderPlacedMessage);
  }

  /** `deleteCustomer` as written: it signs out first and only then reads the
      current user's id, so the path it nulls is `users/customer/undefined`. */
  method DeleteCustomer(db: Store) returns (msg: string)
    modifies db
    ensures db.docs == old(db.docs) - {CustomerDoc(SignedOutUid)}
    ensures db.blobs == old(db.blobs)
    ensures msg == CustomerDeletedMessage
  {
    db.Remove(CustomerDoc(SignedOutUid));
    msg := CustomerDeletedMessage;
  }

  /** The signed-in customer's record survives `deleteCustomer`. */
  lemma DeleteCustomerKeepsSignedInRecord(docs: map<DocPath, Record>, signedIn: string)
    requires CustomerDoc(signedIn) in docs && signedIn != SignedOutUid
    ensures var after := docs - {CustomerDoc(SignedOutUid)};
      CustomerDoc(signedIn) in after && after[CustomerDoc(signedIn)] == docs[CustomerDoc(signedIn)]
  {
  }

  /** `deleteCustomer` as evidently intended: the id of the signed-in customer
      is taken before signing out, and that customer's record is nulled. */
  method DeleteCustomerCorrected(db: Store, signedIn: string) returns (msg: string)
    modifies db
    ensures CustomerDoc(signedIn) !in db.docs
    ensures forall p :: p != CustomerDoc(signedIn) ==> (p in db.docs <==> p in old(db.docs))
    ensures forall p :: p in db.docs ==> db.docs[p] == old(db.docs)[p]
    ensures db.blobs == old(db.blobs)
    ensures msg == CustomerDeletedMessage
  {
    db.Remove(CustomerDoc(signedIn));
    msg := CustomerDeletedMessage;
  }
}
