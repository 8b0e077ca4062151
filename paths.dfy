/** The addresses the services build by string interpolation: document paths in
    the realtime database and object paths in blob storage. */
module Paths {

  /** A document location: `users/customer/<id>`, `users/admin/<id>`,
      `users/deliveryman/<id>` or `products/<id>`. */
  datatype DocPath =
    | CustomerDoc(id: string)
    | AdminDoc(id: string)
    | DeliveryManDoc(id: string)
    | ProductDoc(id: string)

  /** A storage object `<folder>/<name>`; `listAll` on a folder lists its
      objects and reports each one's `name`. */
  datatype BlobPath = BlobPath(folder: string, name: string)

  /** The id the delete operations read after `signOut`: no user is signed in
      by then, and a template literal renders `undefined` as this text. */
  const SignedOutUid := "undefined"

  const CustomerPhotos := "customer_photos"
  const AdminPhotos := "admin_photos"
  const DeliveryManPhotos := "deliveryman_photos"
  const ProductImages := "product_images"
  const ProductVideos := "product_videos"

  /** The collection prefix of a document path. */
  function Root(p: DocPath): (root: string)
    ensures |root| >= 9 && root[|root| - 1] == '/'
  {
    match p
    case CustomerDoc(_) => "users/customer/"
    case AdminDoc(_) => "users/admin/"
    case DeliveryManDoc(_) => "users/deliveryman/"
    case ProductDoc(_) => "products/"
  }

  /** The string the services pass to `ref(database, ...)`. */
  function DocKey(p: DocPath): (key: string)
    ensures |key| == |Root(p)| + |p.id|
    ensures key[..|Root(p)|] == Root(p) && key[|Root(p)|..] == p.id
  {
    Root(p) + p.id
  }

  /** Distinct entities get distinct database paths, so keying the store by
      `DocPath` loses nothing. */
  lemma DocKeyInjective(p: DocPath, q: DocPath)
    requires DocKey(p) == DocKey(q)
    ensures p == q
  {
    var k := DocKey(p);
    assert k[0] == Root(p)[0] == Root(q)[0];
    assert k[6] == Root(p)[6] == Root(q)[6];
    if Root(p) == Root(q) {
      assert p.id == k[|Root(p)|..] == q.id;
    } else {
      // two different roots differ in their first or their seventh character
      assert false;
    }
  }
}
