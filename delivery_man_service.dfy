/** `deliveryManService`: profile updates and the order lifecycle on
    `users/deliveryman/<userId>`: orders are assigned, then completed, which
    moves them to the completed list and logs a history entry. */
module DeliveryManService {
  import opened Json
  import opened Paths
  import opened Store
  import opened JsObjects
  import opened Registration

  const DeliveryManUpdatedMessage := "Delivery man updated successfully"
  const DeliveryManDeletedMessage := "Delivery man deleted successfully"
  const CustomFieldsUpdatedMessage := "Custom fields updated successfully"
  const OrderAssignedMessage := "Order assigned successfully"
  const OrderCompletedMessage := "Order completed successfully"

  /** `registerDeliveryMan` with the account id the identity provider issues
      (`None` when it refuses) and the download URL of the uploaded photo. The
      stored record is a spread copy taken before `photoURL` is assigned; the
      copy shares the `userData` object, so the stored `userData` carries the
      new URL. Failures are rethrown: a missing `userData` cannot be
      destructured, and a primitive one leaves `email` undefined, which the
      identity provider refuses. */
  method RegisterDeliveryMan(db: Store, deliveryMan: JsObject, account: Option<string>, photoUrl: string) returns (r: Result<string>)
    requires deliveryMan.TwoLevel()
    modifies db, deliveryMan.Children()
    ensures deliveryMan.props == old(deliveryMan.props) && deliveryMan.TwoLevel()
    ensures "userData" !in deliveryMan.props ==>
      r == Err(NullValue) && db.docs == old(db.docs) && db.blobs == old(db.blobs)
    ensures "userData" in deliveryMan.props && (deliveryMan.props["userData"].Plain? || account.None?) ==>
      r == Err(AuthFailed) && db.docs == old(db.docs) && db.blobs == old(db.blobs)
    ensures !deliveryMan.RefersAt("userData") || account.None? ==>
      forall c :: c in deliveryMan.Children() ==> c.props == old(c.props)
    ensures deliveryMan.RefersAt("userData") && account.Some? ==>
      forall c :: c in deliveryMan.Children() && c != deliveryMan.props["userData"].target ==> c.props == old(c.props)
    ensures deliveryMan.RefersAt("userData") && account.Some? ==>
      var uid := account.value;
      var userData := deliveryMan.props["userData"].target;
      && r == Ok(uid)
      && userData.props == old(userData.props)["photoURL" := Plain(Str(photoUrl))]
      && db.blobs == old(db.blobs)[BlobPath(DeliveryManPhotos, uid) := photoUrl]
      && db.docs == old(db.docs)[DeliveryManDoc(uid) := old(deliveryMan.SerializeAssigned(userData, "photoURL", Str(photoUrl)))]
      && db.docs[DeliveryManDoc(uid)]["userData"] == Obj(old(userData.Fields())["photoURL" := Str(photoUrl)])
  {
    if "userData" !in deliveryMan.props {
      return Err(NullValue);
    }
    if deliveryMan.props["userData"].Plain? {
      return Err(AuthFailed);
    }
    var copy := new JsObject(deliveryMan.props);
    if account.None? {
      return Err(AuthFailed);
    }
    var uid := account.value;
    UploadAndStoreShared(db, deliveryMan, copy, "userData", "photoURL", BlobPath(DeliveryManPhotos, uid), DeliveryManDoc(uid), photoUrl);
    r := Ok(uid);
  }

  /** A history entry `{ orderId, deliveryDate, deliveryStatus }`. */
  function HistoryEntry(orderId: string, deliveryDate: string, deliveryStatus: string): Value {
    Obj(map["orderId" := Str(orderId), "deliveryDate" := Str(deliveryDate), "deliveryStatus" := Str(deliveryStatus)])
  }

  /** The patch `assignOrder` hands to `update`: the stored assigned orders
      followed by the new order id. */
  function AssignOrderPatch(stored: Record, orderId: string): (r: Result<Record>)
    ensures r.Err? <==> ExistingList(stored, "assignedOrders").Err?
    ensures r.Ok? ==> r.value.Keys == {"assignedOrders"} && r.value["assignedOrders"].List?
    ensures r.Ok? ==>
      var before := ExistingList(stored, "assignedOrders").value;
      var ids := r.value["assignedOrders"].items;
      |ids| == |before| + 1 && ids[..|before|] == before && ids[|before|] == Str(orderId)
  {
    match Appended(stored, "assignedOrders", Str(orderId))
    case Ok(ids) => Ok(map["assignedOrders" := List(ids)])
    case Err(e) => Err(e)
  }

  /** `stored.assignedOrders?.filter(id => id !== orderId) || []`: an absent
      field gives the empty list, an array loses every occurrence of the id,
      anything else has no `filter` to call. */
  function RemainingAssigned(stored: Record, orderId: string): (r: Result<seq<Value>>)
    ensures "assignedOrders" !in stored ==> r == Ok([])
    ensures "assignedOrders" in stored ==> (r.Ok? <==> stored["assignedOrders"].List?)
    ensures r.Err? ==> r.error == NotAFunction
    ensures r.Ok? ==> Str(orderId) !in r.value
    ensures r.Ok? && "assignedOrders" in stored ==>
      forall x :: x in r.value <==> x in stored["assignedOrders"].items && x != Str(orderId)
  {
    if "assignedOrders" !in stored then Ok([])
    else match stored["assignedOrders"]
      case List(ids) => Ok(RemoveAll(ids, Str(orderId)))
      case _ => Err(NotAFunction)
  }

  /** The patch `completeOrder` hands to `update`: the assigned orders without
      the id, the completed orders with the id appended, and the history with
      one entry appended; the three lists are computed in that order. */
  function CompleteOrderPatch(stored: Record, orderId: string, deliveryStatus: string, now: string): (r: Result<Record>)
    ensures RemainingAssigned(stored, orderId).Err? ==> r == Err(NotAFunction)
    ensures RemainingAssigned(stored, orderId).Ok? && ExistingList(stored, "completedOrders").Err? ==>
      r == Err(ExistingList(stored, "completedOrders").error)
    ensures RemainingAssigned(stored, orderId).Ok? && ExistingList(stored, "completedOrders").Ok? && ExistingList(stored, "deliveryHistory").Err? ==>
      r == Err(ExistingList(stored, "deliveryHistory").error)
    ensures r.Ok? <==>
      RemainingAssigned(stored, orderId).Ok? &&
      ExistingList(stored, "completedOrders").Ok? &&
      ExistingList(stored, "deliveryHistory").Ok?
    ensures r.Ok? ==> r.value.Keys == {"assignedOrders", "completedOrders", "deliveryHistory"}
    ensures r.Ok? ==>
      r.value["assignedOrders"] == List(RemainingAssigned(stored, orderId).value) &&
      Str(orderId) !in r.value["assignedOrders"].items
    ensures r.Ok? ==>
      var before := ExistingList(stored, "completedOrders").value;
      r.value["completedOrders"].List? &&
      var completed := r.value["completedOrders"].items;
      |completed| == |before| + 1 && completed[..|before|] == before && completed[|before|] == Str(orderId)
    ensures r.Ok? ==>
      var before := ExistingList(stored, "deliveryHistory").value;
      r.value["deliveryHistory"].List? &&
      var history := r.value["deliveryHistory"].items;
      |history| == |before| + 1 && history[..|before|] == before &&
      history[|before|] == HistoryEntry(orderId, now, deliveryStatus)
  {
    match RemainingAssigned(stored, orderId)
    case Err(e) => Err(e)
    case Ok(remaining) =>
      match Appended(stored, "completedOrders", Str(orderId))
      case Err(e) => Err(e)
      case Ok(completed) =>
        match Appended(stored, "deliveryHistory", HistoryEntry(orderId, now, deliveryStatus))
        case Err(e) => Err(e)
        case Ok(history) =>
          Ok(map["assignedOrders" := List(remaining),
                 "completedOrders" := List(completed),
                 "deliveryHistory" := List(history)])
  }

  /** Completing an order that is assigned once moves it: the remaining
      assigned orders are the others in their old order, and the multiset of
      assigned orders shrinks by exactly that one id. */
  lemma {:induction false} CompleteOrderRemovesOneAssignment(before: seq<Value>, after: seq<Value>, orderId: string)
    requires Str(orderId) !in before && Str(orderId) !in after
    ensures RemoveAll(before + [Str(orderId)] + after, Str(orderId)) == before + after
    ensures multiset(RemoveAll(before + [Str(orderId)] + after, Str(orderId))) + multiset{Str(orderId)}
      == multiset(before + [Str(orderId)] + after)
  {
    var id := Str(orderId);
    var front := before + [id];
    RemoveAllConcat(front, after, id);
    RemoveAllConcat(before, [id], id);
    RemoveAllAbsent(before, id);
    RemoveAllAbsent(after, id);
    assert RemoveAll([id], id) == [];
    assert RemoveAll(front, id) == before;
    assert RemoveAll(front + after, id) == before + after;
    assert multiset(front + after) == multiset(before) + multiset{id} + multiset(after);
  }

  /** Filtering out a value that does not occur changes nothing. */
  lemma {:induction false} RemoveAllAbsent(items: seq<Value>, v: Value)
    requires v !in items
    ensures RemoveAll(items, v) == items
  {
    if items != [] {
      RemoveAllAbsent(items[1..], v);
      assert items == [items[0]] + items[1..];
    }
  }

  /** `updateDeliveryMan`: shallow merge of the given fields. */
  method UpdateDeliveryMan(db: Store, userId: string, patch: Record) returns (msg: string)
    modifies db
    ensures db.docs == old(db.docs)[DeliveryManDoc(userId) := Merge(Lookup(old(db.docs), DeliveryManDoc(userId)), patch)]
    ensures db.blobs == old(db.blobs)
    ensures msg == DeliveryManUpdatedMessage
  {
    db.Update(DeliveryManDoc(userId), patch);
    msg := DeliveryManUpdatedMessage;
  }

  /** `deleteDeliveryMan`: the record at the given id is nulled (the global
      sign-out that precedes it is not modelled). */
  method DeleteDeliveryMan(db: Store, userId: string) returns (msg: string)
    modifies db
    ensures db.docs == old(db.docs) - {DeliveryManDoc(userId)}
    ensures db.blobs == old(db.blobs)
    ensures msg == DeliveryManDeletedMessage
  {
    db.Remove(DeliveryManDoc(userId));
    msg := DeliveryManDeletedMessage;
  }

  /** `updateCustomFields`: the same shallow merge as `updateDeliveryMan`. */
  method UpdateCustomFields(db: Store, userId: string, customFields: Record) returns (msg: string)
    modifies db
    ensures db.docs == old(db.docs)[DeliveryManDoc(userId) := Merge(Lookup(old(db.docs), DeliveryManDoc(userId)), customFields)]
    ensures db.blobs == old(db.blobs)
    ensures msg == CustomFieldsUpdatedMessage
  {
    db.Update(DeliveryManDoc(userId), customFields);
    msg := CustomFieldsUpdatedMessage;
  }

  /** `assignOrder`: read the record, then `update` it with the longer list of
      assigned orders. An absent record throws before any write. */
  method AssignOrder(db: Store, userId: string, orderId: string) returns (r: Result<string>)
    modifies db
    ensures db.blobs == old(db.blobs)
    ensures DeliveryManDoc(userId) !in old(db.docs) ==> r == Err(NullValue) && db.docs == old(db.docs)
    ensures DeliveryManDoc(userId) in old(db.docs) ==>
      var stored := old(db.docs)[DeliveryManDoc(userId)];
      var patch := AssignOrderPatch(stored, orderId);
      && (patch.Err? ==> r == Err(patch.error) && db.docs == old(db.docs))
      && (patch.Ok? ==> r == Ok(OrderAssignedMessage) && db.docs == old(db.docs)[DeliveryManDoc(userId) := Merge(stored, patch.value)])
  {
    var user := db.Get(DeliveryManDoc(userId));
    if user.None? {
      return Err(NullValue);
    }
    var patch := AssignOrderPatch(user.value, orderId);
    if patch.Err? {
      return Err(patch.error);
    }
    db.Update(DeliveryManDoc(userId), patch.value);
    r := Ok(OrderAssignedMessage);
  }

  /** `completeOrder`: read the record, then `update` the three lists in one
      call. An absent record throws before any write. */
  method CompleteOrder(db: Store, userId: string, orderId: string, deliveryStatus: string, now: string) returns (r: Result<string>)
    modifies db
    ensures db.blobs == old(db.blobs)
    ensures DeliveryManDoc(userId) !in old(db.docs) ==> r == Err(NullValue) && db.docs == old(db.docs)
    ensures DeliveryManDoc(userId) in old(db.docs) ==>
      var stored := old(db.docs)[DeliveryManDoc(userId)];
      var patch := CompleteOrderPatch(stored, orderId, deliveryStatus, now);
      && (patch.Err? ==> r == Err(patch.error) && db.docs == old(db.docs))
      && (patch.Ok? ==> r == Ok(OrderCompletedMessage) && db.docs == old(db.docs)[DeliveryManDoc(userId) := Merge(stored, patch.value)])
  {
    var user := db.Get(DeliveryManDoc(userId));
    if user.None? {
      return Err(NullValue);
    }
    var patch := CompleteOrderPatch(user.value, orderId, deliveryStatus, now);
    if patch.Err? {
      return Err(patch.error);
    }
    db.Update(DeliveryManDoc(userId), patch.value);
    r := Ok(OrderCompletedMessage);
  }

  /** `getAssignedOrders`: the stored list, or `[]` when the field is absent or
      falsy; an absent record throws. Nothing is written. */
  method GetAssignedOrders(db: Store, userId: string) returns (r: Result<Value>)
    ensures DeliveryManDoc(userId) !in db.docs ==> r == Err(NullValue)
    ensures DeliveryManDoc(userId) in db.docs ==> r == Ok(FieldOrEmpty(db.docs[DeliveryManDoc(userId)], "assignedOrders"))
  {
    r := ReadListField(db, userId, "assignedOrders");
  }

  /** `getCompletedOrders`: as `getAssignedOrders`, for `completedOrders`. */
  method GetCompletedOrders(db: Store, userId: string) returns (r: Result<Value>)
    ensures DeliveryManDoc(userId) !in db.docs ==> r == Err(NullValue)
    ensures DeliveryManDoc(userId) in db.docs ==> r == Ok(FieldOrEmpty(db.docs[DeliveryManDoc(userId)], "completedOrders"))
  {
    r := ReadListField(db, userId, "completedOrders");
  }

  /** `getDeliveryHistory`: as `getAssignedOrders`, for `deliveryHistory`. */
  method GetDeliveryHistory(db: Store, userId: string) returns (r: Result<Value>)
    ensures DeliveryManDoc(userId) !in db.docs ==> r == Err(NullValue)
    ensures DeliveryManDoc(userId) in db.docs ==> r == Ok(FieldOrEmpty(db.docs[DeliveryManDoc(userId)], "deliveryHistory"))
  {
    r := ReadListField(db, userId, "deliveryHistory");
  }

  /** The shared body of the three readers: `get`, then `userData.<name> || []`. */
  method ReadListField(db: Store, userId: string, name: string) returns (r: Result<Value>)
    ensures DeliveryManDoc(userId) !in db.docs ==> r == Err(NullValue)
    ensures DeliveryManDoc(userId) in db.docs ==> r == Ok(FieldOrEmpty(db.docs[DeliveryManDoc(userId)], name))
  {
    var user := db.Get(DeliveryManDoc(userId));
    if user.None? {
      return Err(NullValue);
    }
    r := Ok(FieldOrEmpty(user.value, name));
  }
}
