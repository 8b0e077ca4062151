/** `adminService`: registration, profile updates, deletion and lookup of
    `users/admin/<userId>`. */
module AdminService {
  import opened Json
  import opened Paths
  import opened Store
  import opened JsObjects

  const AdminUpdatedMessage := "Admin updated successfully"
  const AdminDeletedMessage := "Admin deleted successfully"

  /** `registerAdmin` with the account id the identity provider issues (`None`
      when it refuses) and the download URL of the uploaded photo. The spread
      copy is taken before `photoURL` is assigned, and the assignment goes to
      the caller's object, not to the copy: the stored record keeps whatever
      `photoURL` the caller passed, and only the caller's object gets the URL. */
  method RegisterAdmin(db: Store, admin: JsObject, account: Option<string>, photoUrl: string) returns (r: Result<string>)
    requires admin.TwoLevel()
    modifies db, admin
    ensures account.None? ==>
      r == Err(AuthFailed) && db.docs == old(db.docs) && db.blobs == old(db.blobs) && admin.props == old(admin.props)
    ensures account.Some? ==>
      var uid := account.value;
      && r == Ok(uid)
      && admin.props == old(admin.props)["photoURL" := Plain(Str(photoUrl))]
      && db.blobs == old(db.blobs)[BlobPath(AdminPhotos, uid) := photoUrl]
      && db.docs == old(db.docs)[AdminDoc(uid) := old(admin.Serialize())]
    ensures account.Some? ==>
      var stored := db.docs[AdminDoc(account.value)];
      && ("photoURL" in stored <==> "photoURL" in old(admin.props))
      && (("photoURL" in stored && stored["photoURL"] == Str(photoUrl)) <==>
          ("photoURL" in old(admin.props) && old(admin.props)["photoURL"] == Plain(Str(photoUrl))))
  {
    var copy := new JsObject(admin.props);
    if account.None? {
      return Err(AuthFailed);
    }
    var uid := account.value;
    db.Upload(BlobPath(AdminPhotos, uid), photoUrl);
    var written := AssignAfterCopy(admin, copy, "photoURL", Str(photoUrl));
    db.Set(AdminDoc(uid), written);
    r := Ok(uid);
  }

  /** `registerAdmin` as evidently intended: the uploaded photo's URL is
      assigned to the record that is written. */
  method RegisterAdminCorrected(db: Store, admin: JsObject, account: Option<string>, photoUrl: string) returns (r: Result<string>)
    requires admin.TwoLevel()
    modifies db
    ensures account.None? ==> r == Err(AuthFailed) && db.docs == old(db.docs) && db.blobs == old(db.blobs)
    ensures account.Some? ==>
      var uid := account.value;
      && r == Ok(uid)
      && db.blobs == old(db.blobs)[BlobPath(AdminPhotos, uid) := photoUrl]
      && db.docs == old(db.docs)[AdminDoc(uid) := admin.Serialize()["photoURL" := Str(photoUrl)]]
      && db.docs[AdminDoc(uid)]["photoURL"] == Str(photoUrl)
  {
    var copy := new JsObject(admin.props);
    if account.None? {
      return Err(AuthFailed);
    }
    var uid := account.value;
    db.Upload(BlobPath(AdminPhotos, uid), photoUrl);
    copy.Assign("photoURL", Str(photoUrl));
    AssignedCopySerializes(copy, admin, "photoURL", Str(photoUrl));
    db.Set(AdminDoc(uid), copy.Serialize());
    r := Ok(uid);
  }

  /** `updateAdmin`: shallow merge of the given fields. */
  method UpdateAdmin(db: Store, userId: string, patch: Record) returns (msg: string)
    modifies db
    ensures db.docs == old(db.docs)[AdminDoc(userId) := Merge(Lookup(old(db.docs), AdminDoc(userId)), patch)]
    ensures db.blobs == old(db.blobs)
    ensures msg == AdminUpdatedMessage
  {
    db.Update(AdminDoc(userId), patch);
    msg := AdminUpdatedMessage;
  }

  /** `deleteAdmin` as written: it signs out first and only then reads the
      current user's id, so the path it nulls is `users/admin/undefined`. */
  method DeleteAdmin(db: Store) returns (msg: string)
    modifies db
    ensures db.docs == old(db.docs) - {AdminDoc(SignedOutUid)}
    ensures db.blobs == old(db.blobs)
    ensures msg == AdminDeletedMessage
  {
    db.Remove(AdminDoc(SignedOutUid));
    msg := AdminDeletedMessage;
  }

  /** The signed-in admin's record survives `deleteAdmin`. */
  lemma DeleteAdminKeepsSignedInRecord(docs: map<DocPath, Record>, signedIn: string)
    requires AdminDoc(signedIn) in docs && signedIn != SignedOutUid
    ensures var after := docs - {AdminDoc(SignedOutUid)};
      AdminDoc(signedIn) in after && after[AdminDoc(signedIn)] == docs[AdminDoc(signedIn)]
  {
  }

  /** `deleteAdmin` as evidently intended: the id of the signed-in admin is
      taken before signing out, and that admin's record is nulled. */
  method DeleteAdminCorrected(db: Store, signedIn: string) returns (msg: string)
    modifies db
    ensures AdminDoc(signedIn) !in db.docs
    ensures forall p :: p != AdminDoc(signedIn) ==> (p in db.docs <==> p in old(db.docs))
    ensures forall p :: p in db.docs ==> db.docs[p] == old(db.docs)[p]
    ensures db.blobs == old(db.blobs)
    ensures msg == AdminDeletedMessage
  {
    db.Remove(AdminDoc(signedIn));
    msg := AdminDeletedMessage;
  }

  /** `getAdminDetails`: the stored record, or null when there is none. */
  method GetAdminDetails(db: Store, userId: string) returns (r: Option<Record>)
    ensures r.Some? <==> AdminDoc(userId) in db.docs
    ensures r.Some? ==> r.value == db.docs[AdminDoc(userId)]
  {
    r := db.Get(AdminDoc(userId));
  }
}
