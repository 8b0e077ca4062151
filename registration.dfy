/** The step registration shares between customers and delivery men: the photo
    is uploaded, its URL is assigned into the nested object the spread copy
    shares with the caller's object, and the copy is written. */
module Registration {
  import opened Json
  import opened Paths
  import opened Store
  import opened JsObjects

  /** Upload to `blob`, then `original.name.field = url`, then `set(doc, { ...copy })`.
      Only the shared nested object changes among the caller's objects; the
      written record is the original's serialization with that field set. */
  method UploadAndStoreShared(db: Store, original: JsObject, copy: JsObject, name: string, field: string,
                              blob: BlobPath, doc: DocPath, url: string)
    requires original.TwoLevel() && original.RefersAt(name)
    requires copy.props == original.props && copy !in original.Children()
    modifies db, original.props[name].target
    ensures original.props == old(original.props) && original.TwoLevel()
    ensures original.props[name].target.props == old(original.props[name].target.props)[field := Plain(Str(url))]
    ensures forall c :: c in original.Children() && c != original.props[name].target ==> c.props == old(c.props)
    ensures db.blobs == old(db.blobs)[blob := url]
    ensures db.docs == old(db.docs)[doc := old(original.SerializeAssigned(original.props[name].target, field, Str(url)))]
    ensures db.docs[doc][name] == Obj(old(original.props[name].target.Fields())[field := Str(url)])
  {
    ghost var expected := original.SerializeAssigned(original.props[name].target, field, Str(url));
    db.Upload(blob, url);
    assert original.SerializeAssigned(original.props[name].target, field, Str(url)) == expected;
    var written := AssignThroughShared(original, copy, name, field, Str(url));
    db.Set(doc, written);
  }
}
