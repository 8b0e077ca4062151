/** The backend the services talk to, reduced to its observable state: the
    realtime database as a map from document path to record, and blob storage
    as a map from object path to the download URL it serves. Each platform
    call the services make (`set`, `update`, `get`, `remove`, `uploadBytes`
    with `getDownloadURL`, `deleteObject`, `listAll`) is one method here. */
module Store {
  import opened Json
  import opened Paths

  /** The record at `p`, or the empty record when nothing is stored there. */
  function Lookup(docs: map<DocPath, Record>, p: DocPath): (r: Record)
    ensures p in docs ==> r == docs[p]
    ensures p !in docs ==> r == map[]
  {
    if p in docs then docs[p] else map[]
  }

  /** The shallow merge performed by `update(ref, patch)`: every field named in
      the patch takes the patch's value, every other top-level field keeps its
      stored value, and no field disappears. */
  function Merge(stored: Record, patch: Record): (r: Record)
    ensures r.Keys == stored.Keys + patch.Keys
    ensures forall f :: f in patch ==> r[f] == patch[f]
    ensures forall f :: f in stored && f !in patch ==> r[f] == stored[f]
  {
    stored + patch
  }

  class Store {
    var docs: map<DocPath, Record>
    var blobs: map<BlobPath, string>

    constructor (docs0: map<DocPath, Record>, blobs0: map<BlobPath, string>)
      ensures docs == docs0 && blobs == blobs0
    {
      docs := docs0;
      blobs := blobs0;
    }

    /** `get(ref(database, p))` followed by `.val()`: null when absent. */
    method Get(p: DocPath) returns (r: Option<Record>)
      ensures r.Some? <==> p in docs
      ensures r.Some? ==> r.value == docs[p]
    {
      r := if p in docs then Some(docs[p]) else None;
    }

    /** `set(ref(database, p), r)`: the whole record is replaced. */
    method Set(p: DocPath, r: Record)
      modifies this
      ensures docs == old(docs)[p := r] && blobs == old(blobs)
    {
      docs := docs[p := r];
    }

    /** `update(ref(database, p), patch)`: shallow merge onto what is stored
        (onto nothing when the path is absent). */
    method Update(p: DocPath, patch: Record)
      modifies this
      ensures docs == old(docs)[p := Merge(Lookup(old(docs), p), patch)]
      ensures blobs == old(blobs)
    {
      docs := docs[p := Merge(Lookup(docs, p), patch)];
    }

    /** `remove(ref(database, p))`, and `set(ref(database, p), null)`. */
    method Remove(p: DocPath)
      modifies this
      ensures docs == old(docs) - {p} && blobs == old(blobs)
    {
      docs := docs - {p};
    }

    /** `uploadBytes` to `b` followed by `getDownloadURL`: the object at `b`
        now serves `url`. */
    method Upload(b: BlobPath, url: string)
      modifies this
      ensures blobs == old(blobs)[b := url] && docs == old(docs)
    {
      blobs := blobs[b := url];
    }

    /** `deleteObject` on `b`, a failure for a missing object being ignored. */
    method DeleteBlob(b: BlobPath)
      modifies this
      ensures blobs == old(blobs) - {b} && docs == old(docs)
    {
      blobs := blobs - {b};
    }

    /** `listAll` on a folder: the objects directly inside it. */
    method ListAll(folder: string) returns (items: set<BlobPath>)
      ensures forall b :: b in items <==> b in blobs && b.folder == folder
    {
      items := set b | b in blobs && b.folder == folder;
    }
  }
}
