/** `productService`: the catalogue under `products/<productId>` and its media
    in the `product_images` and `product_videos` storage folders. */
module ProductService {
  import opened Json
  import opened Paths
  import opened Store

  const ProductUpdatedMessage := "Product updated successfully"
  const ProductDeletedMessage := "Product deleted successfully"

  /** A file handed to `addProduct`, with the download URL storage issues for
      it once uploaded. */
  datatype Upload = Upload(name: string, url: string)

  /** `product_images/<productId>_<file name>`. */
  function ImagePath(productId: string, file: Upload): (b: BlobPath)
    ensures b.folder == ProductImages && productId + "_" <= b.name
    ensures b.name[|productId| + 1..] == file.name
  {
    BlobPath(ProductImages, productId + "_" + file.name)
  }

  /** `product_videos/<productId>_<file name>`. */
  function VideoPath(productId: string, file: Upload): (b: BlobPath)
    ensures b.folder == ProductVideos && productId + "_" <= b.name
  {
    BlobPath(ProductVideos, productId + "_" + file.name)
  }

  function ImagePaths(productId: string, images: seq<Upload>): set<BlobPath> {
    set f | f in images :: ImagePath(productId, f)
  }

  predicate DistinctNames(files: seq<Upload>) {
    forall i, j :: 0 <= i < j < |files| ==> files[i].name != files[j].name
  }

  /** Storage after the image loop of `addProduct`: the images uploaded in
      input order, a later image with the same name replacing an earlier one. */
  function UploadedImages(blobs: map<BlobPath, string>, productId: string, images: seq<Upload>): (r: map<BlobPath, string>)
    ensures r.Keys == blobs.Keys + ImagePaths(productId, images)
    ensures forall b :: b in blobs && b !in ImagePaths(productId, images) ==> r[b] == blobs[b]
    decreases |images|
  {
    if images == [] then blobs
    else
      var last := images[|images| - 1];
      var front := images[..|images| - 1];
      assert images == front + [last];
      assert ImagePaths(productId, images) == ImagePaths(productId, front) + {ImagePath(productId, last)};
      UploadedImages(blobs, productId, front)[ImagePath(productId, last) := last.url]
  }

  /** With distinct file names, the object of the `k`-th image serves that
      image's URL: no later image overwrites it. */
  lemma {:induction false} UploadedImageServesUrl(blobs: map<BlobPath, string>, productId: string, images: seq<Upload>, k: nat)
    requires DistinctNames(images) && k < |images|
    ensures UploadedImages(blobs, productId, images)[ImagePath(productId, images[k])] == images[k].url
    decreases |images|
  {
    var n := |images| - 1;
    var front := images[..n];
    var last := ImagePath(productId, images[n]);
    assert UploadedImages(blobs, productId, images) == UploadedImages(blobs, productId, front)[last := images[n].url];
    if k < n {
      assert front[k] == images[k];
      assert DistinctNames(front);
      UploadedImageServesUrl(blobs, productId, front, k);
      assert images[k].name != images[n].name;
      assert ImagePath(productId, images[k]).name[|productId| + 1..] == images[k].name;
    }
  }

  /** One more pass of the image loop uploads the next image. */
  lemma UploadedImagesStep(blobs: map<BlobPath, string>, productId: string, images: seq<Upload>, i: nat)
    requires i < |images|
    ensures UploadedImages(blobs, productId, images[..i + 1])
      == UploadedImages(blobs, productId, images[..i])[ImagePath(productId, images[i]) := images[i].url]
  {
    assert images[..i + 1][..i] == images[..i];
  }

  /** One more pass of the image loop collects the next URL. */
  lemma ImageUrlsStep(images: seq<Upload>, i: nat)
    requires i < |images|
    ensures ImageUrls(images[..i + 1]) == ImageUrls(images[..i]) + [Str(images[i].url)]
  {
    assert images[..i + 1][..i] == images[..i];
  }

  /** Storage after all of `addProduct`'s uploads: the images, then the video
      when one is given. */
  function UploadedMedia(blobs: map<BlobPath, string>, productId: string, images: seq<Upload>, video: Option<Upload>): (r: map<BlobPath, string>)
    ensures video.Some? ==> VideoPath(productId, video.value) in r && r[VideoPath(productId, video.value)] == video.value.url
    ensures forall b :: b in r && (video.Some? ==> b != VideoPath(productId, video.value)) ==>
      b in UploadedImages(blobs, productId, images) && r[b] == UploadedImages(blobs, productId, images)[b]
    ensures forall b :: b in UploadedImages(blobs, productId, images) ==> b in r
  {
    var withImages := UploadedImages(blobs, productId, images);
    if video.Some? then withImages[VideoPath(productId, video.value) := video.value.url] else withImages
  }

  /** The `images` field `addProduct` stores: the download URLs in input order. */
  function ImageUrls(images: seq<Upload>): (urls: seq<Value>)
    ensures |urls| == |images|
    ensures forall i :: 0 <= i < |images| ==> urls[i] == Str(images[i].url)
  {
    if images == [] then []
    else ImageUrls(images[..|images| - 1]) + [Str(images[|images| - 1].url)]
  }

  /** The record `addProduct` stores: the caller's product with `images` set to
      the uploaded URLs in input order, `productId` set to the new id, and
      `video` set when a video is given; every other field as passed. */
  function StoredProduct(product: Record, productId: string, images: seq<Upload>, video: Option<Upload>): (r: Record)
    ensures r.Keys == product.Keys + {"images", "productId"} + (if video.Some? then {"video"} else {})
    ensures r["productId"] == Str(productId)
    ensures r["images"].List? && |r["images"].items| == |images|
    ensures forall i :: 0 <= i < |images| ==> r["images"].items[i] == Str(images[i].url)
    ensures video.Some? ==> r["video"] == Str(video.value.url)
    ensures forall f :: f in product && f != "images" && f != "productId" && (video.Some? ==> f != "video") ==> r[f] == product[f]
  {
    var withUrls := product["images" := List(ImageUrls(images))]["productId" := Str(productId)];
    if video.Some? then withUrls["video" := Str(video.value.url)] else withUrls
  }

  /** `addProduct` with the id `generateUniqueId` produced: upload each image
      and collect its URL, upload the video if any, then `set` the record. */
  method AddProduct(db: Store, productId: string, product: Record, images: seq<Upload>, video: Option<Upload>) returns (r: string)
    modifies db
    ensures r == productId
    ensures db.docs == old(db.docs)[ProductDoc(productId) := StoredProduct(product, productId, images, video)]
    ensures db.blobs == UploadedMedia(old(db.blobs), productId, images, video)
  {
    var imageUrls: seq<Value> := [];
    for i := 0 to |images|
      invariant db.docs == old(db.docs)
      invariant db.blobs == UploadedImages(old(db.blobs), productId, images[..i])
      invariant imageUrls == ImageUrls(images[..i])
    {
      UploadedImagesStep(old(db.blobs), productId, images, i);
      ImageUrlsStep(images, i);
      db.Upload(ImagePath(productId, images[i]), images[i].url);
      imageUrls := imageUrls + [Str(images[i].url)];
    }
    assert images[..|images|] == images;
    var stored := product["images" := List(imageUrls)]["productId" := Str(productId)];
    if video.Some? {
      db.Upload(VideoPath(productId, video.value), video.value.url);
      stored := stored["video" := Str(video.value.url)];
    }
    db.Set(ProductDoc(productId), stored);
    r := productId;
  }

  /** `updateProduct`: shallow merge of the given fields. */
  method UpdateProduct(db: Store, productId: string, patch: Record) returns (msg: string)
    modifies db
    ensures db.docs == old(db.docs)[ProductDoc(productId) := Merge(Lookup(old(db.docs), ProductDoc(productId)), patch)]
    ensures db.blobs == old(db.blobs)
    ensures msg == ProductUpdatedMessage
  {
    db.Update(ProductDoc(productId), patch);
    msg := ProductUpdatedMessage;
  }

  /** `getProductDetails`: the stored record, or null when there is none. */
  method GetProductDetails(db: Store, productId: string) returns (r: Option<Record>)
    ensures r.Some? <==> ProductDoc(productId) in db.docs
    ensures r.Some? ==> r.value == db.docs[ProductDoc(productId)]
  {
    r := db.Get(ProductDoc(productId));
  }

  /** The image objects `deleteProduct` deletes: every object in the images
      folder whose name starts with the product id. */
  function ImagesNamedAfter(blobs: map<BlobPath, string>, productId: string): set<BlobPath> {
    set b | b in blobs && b.folder == ProductImages && productId <= b.name
  }

  /** Storage after `deleteProduct`: the images named after the id are gone,
      and so is `product_videos/<productId>` if it existed. */
  function PurgedAsWritten(blobs: map<BlobPath, string>, productId: string): (r: map<BlobPath, string>)
    ensures forall b :: b in r <==>
      b in blobs && !(b.folder == ProductImages && productId <= b.name) && b != BlobPath(ProductVideos, productId)
    ensures forall b :: b in r ==> r[b] == blobs[b]
  {
    blobs - ImagesNamedAfter(blobs, productId) - {BlobPath(ProductVideos, productId)}
  }

  /** `deleteProduct`: remove the record, list the images folder and delete
      each object whose name starts with the id, then delete the video object
      named after the bare id, ignoring its absence. */
  method DeleteProduct(db: Store, productId: string) returns (msg: string)
    modifies db
    ensures db.docs == old(db.docs) - {ProductDoc(productId)}
    ensures db.blobs == PurgedAsWritten(old(db.blobs), productId)
    ensures msg == ProductDeletedMessage
  {
    db.Remove(ProductDoc(productId));
    var listed := db.ListAll(ProductImages);
    var pending := listed;
    while pending != {}
      invariant pending <= listed
      invariant db.docs == old(db.docs) - {ProductDoc(productId)}
      invariant db.blobs == old(db.blobs) - (set b | b in listed - pending && productId <= b.name)
      decreases pending
    {
      var image :| image in pending;
      ghost var done := set b | b in listed - pending && productId <= b.name;
      if productId <= image.name {
        db.DeleteBlob(image);
        assert (set b | b in listed - (pending - {image}) && productId <= b.name) == done + {image};
      } else {
        assert (set b | b in listed - (pending - {image}) && productId <= b.name) == done;
      }
      pending := pending - {image};
    }
    assert (set b | b in listed - pending && productId <= b.name) == ImagesNamedAfter(old(db.blobs), productId);
    db.DeleteBlob(BlobPath(ProductVideos, productId));
    msg := ProductDeletedMessage;
  }

  /** After `deleteProduct` no image uploaded for the product is left, but its
      video, stored under `<productId>_<file name>`, is. */
  lemma PurgedAsWrittenKeepsVideo(blobs: map<BlobPath, string>, productId: string, images: seq<Upload>, video: Upload)
    ensures var after := PurgedAsWritten(UploadedMedia(blobs, productId, images, Some(video)), productId);
      && (forall f :: f in images ==> ImagePath(productId, f) !in after)
      && VideoPath(productId, video) in after
  {
    var name := VideoPath(productId, video).name;
    assert |name| > |productId|;
  }

  /** `deleteProduct` of one product also deletes the images of another product
      whose id extends the first id, e.g. ids `k_i` and `k_ia2bc`. */
  lemma PurgedAsWrittenHitsOtherProduct()
    ensures var front := Upload("front.png", "https://storage/front.png");
      var blobs := map[ImagePath("k_ia2bc", front) := front.url];
      && ImagePath("k_ia2bc", front) in blobs
      && ImagePath("k_ia2bc", front) !in PurgedAsWritten(blobs, "k_i")
  {
    var front := Upload("front.png", "https://storage/front.png");
    assert ImagePath("k_ia2bc", front).name == "k_ia2bc_front.png";
    assert "k_i" <= "k_ia2bc_front.png";
  }

  /** The objects `addProduct` uploads for a product: names of the form
      `<productId>_<file name>` in either media folder. */
  function ProductMedia(blobs: map<BlobPath, string>, productId: string): set<BlobPath> {
    set b | b in blobs && (b.folder == ProductImages || b.folder == ProductVideos) && productId + "_" <= b.name
  }

  /** Storage after deleting a product's media as evidently intended. */
  function PurgedCorrected(blobs: map<BlobPath, string>, productId: string): (r: map<BlobPath, string>)
    ensures forall b :: b in r <==> b in blobs && b !in ProductMedia(blobs, productId)
    ensures forall b :: b in r ==> r[b] == blobs[b]
  {
    blobs - ProductMedia(blobs, productId)
  }

  /** The corrected deletion removes every object `addProduct` uploaded for the
      product, the video included. */
  lemma PurgedCorrectedRemovesAllMedia(blobs: map<BlobPath, string>, productId: string, images: seq<Upload>, video: Option<Upload>)
    ensures var after := PurgedCorrected(UploadedMedia(blobs, productId, images, video), productId);
      && (forall f :: f in images ==> ImagePath(productId, f) !in after)
      && (video.Some? ==> VideoPath(productId, video.value) !in after)
  {
  }

  /** Characters `Number.prototype.toString(36)` produces. */
  predicate Base36(s: string) {
    forall i :: 0 <= i < |s| ==> '0' <= s[i] <= '9' || 'a' <= s[i] <= 'z'
  }

  /** The shape of an id from `generateUniqueId`: the time in base 36, an
      underscore, then random base-36 characters. */
  function UniqueId(time: string, random: string): string {
    time + "_" + random
  }

  /** A string cut at its first underscore determines both parts. */
  lemma SplitAtFirstUnderscore(a: string, x: string, b: string, y: string)
    requires Base36(a) && Base36(b)
    requires a + "_" + x == b + "_" + y
    ensures a == b && x == y
  {
    var s := a + "_" + x;
    assert s[|a|] == '_' && s[|b|] == '_';
    assert forall i :: 0 <= i < |a| ==> s[i] == a[i];
    assert forall i :: 0 <= i < |b| ==> s[i] == b[i];
    if |a| != |b| {
      // the earlier of the two positions holds a base-36 character of the longer part
      assert false;
    }
    assert a == s[..|a|] == b;
    assert x == s[|a| + 1..] == y;
  }

  /** For ids of the generated shape, `<id>_` starts the name of another
      product's object only when the ids are equal. */
  lemma {:induction false} MediaPrefixDeterminesId(time1: string, random1: string, time2: string, random2: string, fileName: string)
    requires Base36(time1) && Base36(random1) && Base36(time2) && Base36(random2)
    requires UniqueId(time1, random1) + "_" <= UniqueId(time2, random2) + "_" + fileName
    ensures time1 == time2 && random1 == random2
  {
    var p := UniqueId(time1, random1) + "_";
    var q := UniqueId(time2, random2) + "_" + fileName;
    var rest := q[|p|..];
    assert q == p + rest;
    assert p + rest == time1 + "_" + (random1 + "_" + rest);
    assert q == time2 + "_" + (random2 + "_" + fileName);
    SplitAtFirstUnderscore(time1, random1 + "_" + rest, time2, random2 + "_" + fileName);
    SplitAtFirstUnderscore(random1, rest, random2, fileName);
  }

  /** The corrected deletion leaves the media of every other product with a
      generated id alone. */
  lemma PurgedCorrectedSparesOtherProducts(blobs: map<BlobPath, string>, time1: string, random1: string, time2: string, random2: string, file: Upload)
    requires Base36(time1) && Base36(random1) && Base36(time2) && Base36(random2)
    requires UniqueId(time1, random1) != UniqueId(time2, random2)
    ensures var other := UniqueId(time2, random2);
      var after := PurgedCorrected(blobs, UniqueId(time1, random1));
      && (ImagePath(other, file) in blobs ==> ImagePath(other, file) in after)
      && (VideoPath(other, file) in blobs ==> VideoPath(other, file) in after)
  {
    var id := UniqueId(time1, random1);
    var other := UniqueId(time2, random2);
    if id + "_" <= other + "_" + file.name {
      MediaPrefixDeterminesId(time1, random1, time2, random2, file.name);
    }
  }

  /** `get(ref(database, 'products')).val()`: the product records keyed by id. */
  function ProductCollection(docs: map<DocPath, Record>): (c: map<string, Record>)
    ensures forall id :: id in c <==> ProductDoc(id) in docs
    ensures forall id :: id in c ==> c[id] == docs[ProductDoc(id)]
  {
    map p | p in docs && p.ProductDoc? :: p.id := docs[p]
  }

  /** `{ productId: key, ...record }`: the key goes in first, so a `productId`
      the record carries itself overrides it. */
  function WithProductId(key: string, rec: Record): (r: Record)
    ensures r.Keys == rec.Keys + {"productId"}
    ensures forall f :: f in rec ==> r[f] == rec[f]
    ensures "productId" !in rec ==> r["productId"] == Str(key)
  {
    map["productId" := Str(key)] + rec
  }

  /** Halfway through `getAllProducts`: the keys taken so far, each once, and
      for each the record with its key injected; `pending` holds the rest. */
  ghost predicate Listing(c: map<string, Record>, pending: set<string>, keys: seq<string>, products: seq<Record>) {
    && pending <= c.Keys
    && |products| == |keys|
    && |keys| + |pending| == |c|
    && (forall i, j :: 0 <= i < j < |keys| ==> keys[i] != keys[j])
    && (forall id :: id in keys <==> id in c && id !in pending)
    && (forall i :: 0 <= i < |keys| ==> keys[i] in c && products[i] == WithProductId(keys[i], c[keys[i]]))
  }

  /** Taking one more pending key keeps the listing consistent. */
  lemma ListingStep(c: map<string, Record>, pending: set<string>, keys: seq<string>, products: seq<Record>, key: string)
    requires Listing(c, pending, keys, products) && key in pending
    ensures Listing(c, pending - {key}, keys + [key], products + [WithProductId(key, c[key])])
  {
    assert key !in keys;
  }

  /** `getAllProducts`: one element per key of the products collection, in the
      store's iteration order (`keys`), each the record with its key injected. */
  method GetAllProducts(db: Store) returns (products: seq<Record>, ghost keys: seq<string>)
    ensures |products| == |ProductCollection(db.docs)|
    ensures |keys| == |products|
    ensures forall i, j :: 0 <= i < j < |keys| ==> keys[i] != keys[j]
    ensures forall id :: id in keys <==> ProductDoc(id) in db.docs
    ensures forall i :: 0 <= i < |keys| ==>
      ProductDoc(keys[i]) in db.docs && products[i] == WithProductId(keys[i], db.docs[ProductDoc(keys[i])])
  {
    var collection := ProductCollection(db.docs);
    var pending := collection.Keys;
    products, keys := [], [];
    while pending != {}
      invariant Listing(collection, pending, keys, products)
      decreases pending
    {
      var key :| key in pending;
      ListingStep(collection, pending, keys, products, key);
      products := products + [WithProductId(key, collection[key])];
      keys := keys + [key];
      pending := pending - {key};
    }
  }
}
