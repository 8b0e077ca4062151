# E-commerce services: a Dafny model

This project models `service.ts` from the e-commerce front end: the
customer, product, admin and delivery-man services. They keep their data in a
realtime document database and their photos, images and videos in blob storage.

- The backend is a `Store.Store` object with two maps. `docs` maps a document
  path to a record. `blobs` maps an object path to the download URL it serves.
- Each platform call the services make is one `Store` method: `set`, `update`,
  `get`, `remove` or a `null` write, `uploadBytes` with `getDownloadURL`,
  `deleteObject`, and `listAll`.
- Every service operation is a method that changes the store as the platform
  calls in `service.ts` do, for ids and patch keys that are plain path
  segments (see "Left out" for empty ids and names containing `/`). Where an operation computes a new array or
  record first, a function computes it, and the lemmas are stated about those
  functions.
- Stored values are `Json.Value`. The JavaScript operations the services apply
  to a record read back from the store are modelled explicitly:
  - `x || []` with JavaScript truthiness;
  - the spread `[...x]`, which also spreads a string into characters and throws
    on anything else that is not an array;
  - `.filter(id => id !== orderId)`;
  - reading a property of a `null` snapshot, which throws before anything is
    written.
- Registration spread-copies the caller's object and then assigns `photoURL`.
  To model what reaches the database, the caller's objects are heap objects
  (`JsObjects.JsObject`) whose nested objects are shared by reference.
- Inputs stand in for what the platform supplies:
  - the new account's id, or its absence when account creation fails;
  - the download URLs;
  - the product id from `generateUniqueId`;
  - the current time as an ISO string.

## Model

| member | source | states |
|---|---|---|
| Json.FieldOrEmpty | service.ts:684 | `record.name \|\| []` is the stored field when it is present and truthy, otherwise a fresh empty list |
| Json.Spread | service.ts:258 | the spread `[...v]` succeeds exactly on arrays and strings: an array gives its elements, a string gives its characters as one-character strings |
| Json.ExistingList | service.ts:286 | `[...(record.name \|\| [])]`: an absent or falsy field gives no elements, an array field gives its elements, and it throws exactly when the field is truthy and neither an array nor a string |
| Json.Appended | service.ts:640 | `[...(record.name \|\| []), x]` fails exactly when the spread fails; otherwise it is the existing elements unchanged followed by `x` |
| Json.RemoveAll | service.ts:656 | `filter(id => id !== v)`: an element is kept iff it differs from `v`; the multiset of the result is the input's with every `v` removed |
| Json.RemoveAllConcat | service.ts:656 | filtering distributes over concatenation, so the elements that remain keep their relative order |
| Paths.DocKey | service.ts:200 | the interpolated database path is the collection root followed by the id, and both parts can be read back from it |
| Paths.DocKeyInjective | service.ts:200 | two documents with the same interpolated path are the same document: distinct entities never render to the same path string. That no document path is an ancestor of another is not proved (an empty id breaks it; see "Left out") |
| Store.Lookup | service.ts:228 | the record stored at a path, or the empty record when nothing is stored there |
| Store.Merge | service.ts:228 | the shallow merge of `update`: the keys are the union, every patched field takes the patch value, and every other stored field keeps its value |
| Store.Store.Get | service.ts:389 | `get(...).val()` is the stored record, or null exactly when the path is absent |
| Store.Store.Set | service.ts:260 | `set` replaces the whole record at the path; nothing else changes |
| Store.Store.Update | service.ts:228 | `update` stores the merge of the patch onto the stored record, or onto nothing; nothing else changes |
| Store.Store.Remove | service.ts:400 | `remove`, and `set(ref, null)`, drop exactly that path |
| Store.Store.Upload | service.ts:193 | an upload makes the object at that path serve the new URL; the database is untouched |
| Store.Store.DeleteBlob | service.ts:413 | `deleteObject` drops exactly that object, and a missing object is no error |
| Store.Store.ListAll | service.ts:404 | `listAll` lists exactly the stored objects in that folder |
| JsObjects.JsObject.Fields | service.ts:183 | a flat object's record has the same keys and holds each slot's value |
| JsObjects.JsObject.Serialize | service.ts:200-202 | writing an object stores each plain slot's value and, for each nested object, that object's contents at write time |
| JsObjects.JsObject.Assign | service.ts:197 | a property assignment changes that one slot of that one object |
| JsObjects.JsObject.SerializeAssigned | service.ts:197-202 | what writing the object gives once one field of a nested object is set: every slot that refers to that object shows the new value, and every other slot is written as before |
| JsObjects.SpreadCopySerializesAlike | service.ts:184 | a spread copy shares its original's nested objects, satisfies the same invariant, and is written identically |
| JsObjects.AssignThroughShared | service.ts:184-202 | assigning into a nested object that a spread copy shares changes what the copy writes: the written record is the original's serialization with that field updated |
| JsObjects.AssignAfterCopy | service.ts:445-464 | assigning a top-level property of the original after the copy was taken leaves the copy unaffected: the written record is the original as it was before the assignment |
| JsObjects.AssignedCopySerializes | service.ts:445-464 | a spread copy with one top-level field then set is written as the original with exactly that field replaced |
| Registration.UploadAndStoreShared | service.ts:192-202 | upload, assignment into the shared nested object, then `set` of the copy: the object serves the URL, the stored record is the original's serialization with the field set, and no other object of the caller changes |
| CustomerService.RegisterCustomer | service.ts:181-208 | the new `photoURL` reaches the caller's `userData` and, because the copy shares that object, the stored record too; no other nested object of the caller changes. A missing `userData` or a refused account yields `undefined`, no write, and leaves every nested object of the caller as it was |
| CustomerService.UpdateCustomer | service.ts:226-234 | the customer record becomes the shallow merge of the given fields onto it |
| CustomerService.DeleteCustomer | service.ts:236-250 | the uid is read after sign-out, so the write nulls `users/customer/undefined` |
| CustomerService.DeleteCustomerKeepsSignedInRecord | service.ts:239-243 | after `deleteCustomer`, the signed-in customer's record is still there, unchanged |
| CustomerService.DeleteCustomerCorrected | service.ts:236-250 | taking the uid before sign-out removes exactly the signed-in customer's record and leaves every other record unchanged |
| CustomerService.AddToCartRecord | service.ts:258-260 | the record `addToCart` writes has only the key `productCart`: the stored cart, then the new entry last. It fails exactly when the stored cart cannot be spread |
| CustomerService.AddToCart | service.ts:252-267 | an absent record throws with no write; otherwise the whole record is replaced by `{ productCart }`, or nothing is written when the spread throws |
| CustomerService.CartSetDropsFieldOrderUpdateKeepsIt | service.ts:260 | any other field of the customer is lost by `addToCart`'s `set` and kept by `placeOrder`'s `update` |
| CustomerService.UpdateCart | service.ts:269-277 | the cart is replaced and every other field is kept |
| CustomerService.PlaceOrderPatch | service.ts:285-288 | the patch has exactly `orders` and `productCart`: the orders with the new one appended, and an empty cart |
| CustomerService.PlaceOrderEffect | service.ts:285-288 | after `placeOrder` the orders are one longer with the new order last, the cart is empty, and every other field keeps its value |
| CustomerService.PlaceOrder | service.ts:279-295 | an absent record throws with no write; otherwise the record becomes the merge of the patch, or nothing is written when the spread throws |
| ProductService.ImagePath | service.ts:352 | an image lives at `product_images/<productId>_<file name>`, from which the file name can be read back |
| ProductService.VideoPath | service.ts:362 | a video lives at `product_videos/<productId>_<file name>` |
| ProductService.UploadedImages | service.ts:351-356 | the image loop adds exactly one object per image and leaves every other object alone |
| ProductService.UploadedImageServesUrl | service.ts:351-356 | with distinct file names, each image's object serves that image's URL: no later image overwrites it |
| ProductService.UploadedImagesStep | service.ts:351-355 | one more pass of the loop adds the next image's object, serving its URL |
| ProductService.ImageUrls | service.ts:350-357 | the stored `images` list has one URL per image, in input order |
| ProductService.ImageUrlsStep | service.ts:354-355 | one more pass of the loop appends the next image's URL |
| ProductService.StoredProduct | service.ts:357-368 | the stored product has `images` as the URLs in input order, `productId` as the new id, `video` when one is given, and every other field as passed |
| ProductService.AddProduct | service.ts:344-375 | the loop uploads the images in order and collects their URLs; then the video is uploaded if given, and the product is written with `set`; the id is returned |
| ProductService.UpdateProduct | service.ts:377-385 | the product record becomes the shallow merge of the given fields onto it |
| ProductService.GetProductDetails | service.ts:387-395 | the stored product, or null exactly when it is absent |
| ProductService.UploadedMedia | service.ts:351-364 | after `addProduct`'s uploads, the video object, when a video is given, serves its URL, and every other object is as the image loop left it |
| ProductService.PurgedAsWritten | service.ts:402-413 | after `deleteProduct`, an object remains iff it is neither an image whose name starts with the id nor `product_videos/<productId>`; the rest is unchanged |
| ProductService.DeleteProduct | service.ts:397-420 | the record is removed, the loop over the listing deletes every image whose name starts with the id, and then `product_videos/<productId>` is deleted |
| ProductService.PurgedAsWrittenKeepsVideo | service.ts:362 | after `deleteProduct`, none of the product's images remain but its video does |
| ProductService.PurgedAsWrittenHitsOtherProduct | service.ts:406 | deleting product `k_i` also deletes image `k_ia2bc_front.png` of product `k_ia2bc` |
| ProductService.PurgedCorrected | service.ts:402-413 | the corrected deletion removes exactly the objects named `<productId>_...` in either media folder |
| ProductService.PurgedCorrectedRemovesAllMedia | service.ts:351-364 | the corrected deletion removes every image and the video that `addProduct` uploaded for the product |
| ProductService.SplitAtFirstUnderscore | service.ts:342 | an id of the generated shape `<base36>_<rest>` splits uniquely at its first underscore |
| ProductService.MediaPrefixDeterminesId | service.ts:339-343 | for generated ids, `<id>_` can start another generated id's object name only when the ids are equal |
| ProductService.PurgedCorrectedSparesOtherProducts | service.ts:339-343 | the corrected deletion leaves the images and video of every other product with a generated id in place |
| ProductService.ProductCollection | service.ts:423-424 | the `products` snapshot has one entry per stored product, keyed by its id |
| ProductService.WithProductId | service.ts:430 | `{ productId: key, ...record }` keeps every stored field, so a stored `productId` overrides the key; the key is used only when the record has none |
| ProductService.ListingStep | service.ts:428-431 | taking one more key keeps the partial listing consistent: each key once, and each element its record with the key injected |
| ProductService.GetAllProducts | service.ts:421-439 | as many elements as stored products; in iteration order, each stored key is taken exactly once and yields its record with the key injected |
| AdminService.RegisterAdmin | service.ts:442-471 | the copy is taken before `photoURL` is assigned, and the assignment goes to the caller's object. The stored record is the caller's object as it was, so it holds the new URL only if the caller had already passed that URL |
| AdminService.RegisterAdminCorrected | service.ts:442-471 | with the URL assigned to the record that is written, the stored admin has `photoURL` equal to the uploaded photo's URL |
| AdminService.UpdateAdmin | service.ts:489-497 | the admin record becomes the shallow merge of the given fields onto it |
| AdminService.DeleteAdmin | service.ts:499-513 | the uid is read after sign-out, so the write nulls `users/admin/undefined` |
| AdminService.DeleteAdminKeepsSignedInRecord | service.ts:502-506 | after `deleteAdmin`, the signed-in admin's record is still there, unchanged |
| AdminService.DeleteAdminCorrected | service.ts:499-513 | taking the uid before sign-out removes exactly the signed-in admin's record and leaves every other record unchanged |
| AdminService.GetAdminDetails | service.ts:515-523 | the stored admin record, or null exactly when it is absent |
| DeliveryManService.RegisterDeliveryMan | service.ts:568-596 | as for customers, the stored `userData` carries the new `photoURL` and no other nested object of the caller changes. A missing `userData` throws on destructuring; a primitive one, or a refused account, fails account creation; no failure writes anything or changes the caller's nested objects |
| DeliveryManService.UpdateDeliveryMan | service.ts:598-606 | the delivery man's record becomes the shallow merge of the given fields onto it |
| DeliveryManService.DeleteDeliveryMan | service.ts:608-621 | the record at the given id is removed, and nothing else changes |
| DeliveryManService.UpdateCustomFields | service.ts:624-632 | the same shallow merge, for the custom fields |
| DeliveryManService.AssignOrderPatch | service.ts:640-641 | the patch holds only `assignedOrders`: the stored ids, then the new id. It fails exactly when the spread fails |
| DeliveryManService.AssignOrder | service.ts:634-648 | an absent record throws with no write; otherwise the record becomes the merge of the patch |
| DeliveryManService.RemainingAssigned | service.ts:656 | an absent field gives `[]`; a non-array field has no `filter` and throws; an array keeps exactly its elements other than the id, so the id no longer occurs |
| DeliveryManService.CompleteOrderPatch | service.ts:656-669 | the patch has exactly the three lists: assigned orders without the id; completed orders and history each with one entry appended. It fails exactly when one of the three computations throws, with the error of the first one that throws in source order |
| DeliveryManService.CompleteOrderRemovesOneAssignment | service.ts:656 | completing an order assigned once removes exactly that one id: the others stay in their order, and the multiset shrinks by one |
| DeliveryManService.RemoveAllAbsent | service.ts:656 | filtering out an id that does not occur changes nothing |
| DeliveryManService.CompleteOrder | service.ts:650-676 | an absent record throws with no write; otherwise the record becomes the merge of the patch, other fields untouched |
| DeliveryManService.ReadListField | service.ts:680-684 | the readers' shared body: an absent record gives the null-snapshot error; otherwise the named field when truthy, else `[]` |
| DeliveryManService.GetAssignedOrders | service.ts:678-689 | an absent record throws; otherwise the stored field if truthy, else `[]`; nothing is written |
| DeliveryManService.GetCompletedOrders | service.ts:691-702 | the same, for `completedOrders` |
| DeliveryManService.GetDeliveryHistory | service.ts:704-715 | the same, for `deliveryHistory` |

The rows for `Json.FieldOrEmpty`, `Json.Spread`, `Paths.DocKey`, `Store.Lookup`
and `JsObjects.JsObject.Fields`, `Serialize` and `SerializeAssigned` define the
JavaScript and database primitives that the other contracts are stated in;
they are definitions, not properties. `ProductService.ImagesNamedAfter` and
`ProductService.ProductMedia` are helpers: the sets of objects the deletion
rows remove.

## Left out

- Login, social sign-in pop-ups, sign-out and `currentUser` are identity-provider calls. Account creation is an input: the new id, or `None` when it fails. The sign-out in the delete operations only matters through the id read after it, modelled as the text `undefined`.
- Firebase initialisation and configuration: no behaviour to model.
- `generateUniqueId` reads the clock and a random source. The product id is an input to `AddProduct`; only the shape of the id (`ProductService.UniqueId`) enters the lemmas about deletion.
- `new Date().toISOString()` is a string input.
- Concurrency: each operation runs to completion on its own. The unawaited `forEach` in `deleteProduct` is modelled as if each deletion completed before the call returns. Races between concurrent read-modify-write operations are not modelled.
- Console logging, and the rethrowing of errors, are not modelled. An operation either returns or yields an `Err`.
- File bytes and URL generation: an upload is modelled as its path and the URL it ends up serving.
- Platform failures are not modelled: network errors, permission rules, missing objects other than the ignored video deletion.
- The database's normalisation of stored values is not modelled: arrays stored as objects, empty arrays and objects dropped, `null` fields removed. A record reads back as it was written.
- Numbers are unbounded integers: no floating point, `NaN` or `-0`.
- Ids and file names that are empty or contain `/`, and patch keys that contain `/`, are taken as flat names. The database drops empty path segments and reads `/` as nesting, so in `service.ts` an empty id addresses the whole collection (`deleteProduct("")` removes every product, `getProductDetails("")` returns them all, `updateCustomer("", patch)` writes `users/customer/<key>`), and an `update` key such as `"userData/phone"` changes one nested field. The model instead reads or writes the single document keyed by that id and merges such a key as a top-level field name.
- `AddProduct` also assigns `images`, `productId` and `video` on the caller's object. Only the stored record is modelled.
- ProductService.UploadedImages: when two images share a file name, which URL the shared object serves is not stated; the later upload wins, as the body shows.
- ProductService.GetAllProducts: the order of the result is the store's key order, which is left unspecified (the ghost `keys`).
- CustomerService.RegisterCustomer: every failure yields `undefined`; which error was logged is not modelled.

## Findings

| source | as written | input that shows it | evidently intended | confidence | as-written member | corrected member |
|---|---|---|---|---|---|---|
| service.ts:362,411-413 | the video is uploaded to `product_videos/<productId>_<file name>`, but `deleteProduct` deletes `product_videos/<productId>` | any product added with a video, then deleted | the product's video is deleted with it | not executed; high | ProductService.PurgedAsWrittenKeepsVideo | ProductService.PurgedCorrectedRemovesAllMedia |
| service.ts:406 | every image whose name starts with the bare id is deleted | deleting product `k_i` while product `k_ia2bc` has image `front.png` | only objects named `<productId>_...` are deleted | not executed; low, since generated ids seldom extend one another | ProductService.PurgedAsWrittenHitsOtherProduct | ProductService.PurgedCorrectedSparesOtherProducts |
| service.ts:239-243 | the uid is read after `signOut`, so the path nulled is `users/customer/undefined` | a signed-in customer `c1` calls `deleteCustomer` | the signed-in customer's record is removed | not executed; high | CustomerService.DeleteCustomerKeepsSignedInRecord | CustomerService.DeleteCustomerCorrected |
| service.ts:502-506 | the uid is read after `signOut`, so the path nulled is `users/admin/undefined` | a signed-in admin `a1` calls `deleteAdmin` | the signed-in admin's record is removed | not executed; high | AdminService.DeleteAdminKeepsSignedInRecord | AdminService.DeleteAdminCorrected |
| service.ts:445,459-464 | the uploaded photo's URL is assigned to the caller's object after the top-level copy, so the stored admin keeps the `photoURL` that was passed in | registering an admin with `photoURL: ""` | the stored admin's `photoURL` is the uploaded photo's URL | not executed; high | AdminService.RegisterAdmin | AdminService.RegisterAdminCorrected |
