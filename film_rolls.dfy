/** The film-roll router: listing rolls, listing and deleting a roll's objects,
    the favourite key, admitting a zip upload as a new roll, and publishing the
    extracted members under the roll's keys. Storage calls are replaced by their
    replies, which every operation takes as parameters. */
module FilmRolls {
  import opened Wrappers
  import opened Keys
  import opened ObjectStore

  /** The bucket every route talks to. */
  const Bucket: string := "film-files"

  /** The public URL of an object is this text followed by its key. */
  const UrlPrefix: string := "https://" + Bucket + ".s3.amazonaws.com/"

  const ZipMimetype: string := "application/zip"

  /** What an async route handler ends with: a reply was sent (200 unless a
      status was set), or its promise was rejected with an error message, or
      (POST only) the upload job was handed to the worker and then `reply` was
      sent with status 200. */
  datatype Body = Text(text: string) | Items(items: seq<string>)
  datatype Outcome =
    | Sent(status: nat, body: Body)
    | Threw(error: string)
    | Dispatched(job: Job, reply: Body)

  /** One uploaded file as the upload middleware gives it: a name and a declared
      media type (its bytes are not modelled). `req.files` holds `file` when the
      form had a field of that name. */
  datatype UploadedFile = UploadedFile(name: string, mimetype: string)
  /** The value of the `file` field: one file, or an array when the form sent
      several files under that name. An array has no `mimetype`. */
  datatype FileField = One(upload: UploadedFile) | Many(uploads: seq<UploadedFile>)
  datatype UploadedFiles = UploadedFiles(file: Option<FileField>)

  /** The field's `mimetype`, undefined for an array. */
  function Mimetype(field: FileField): (m: Option<string>)
    ensures m.Some? <==> field.One?
    ensures field.One? ==> m.value == field.upload.mimetype
  {
    match field
    case One(f) => Some(f.mimetype)
    case Many(_) => None
  }

  /** The job handed to the worker. */
  datatype Job = Job(files: UploadedFiles, filmRoll: string, bucket: string, destinationPath: string)

  /** The listing parameters of the routes: the root listing rolled up at '/',
      and the listing of one roll by its bare name. */
  function RootListRequest(): (q: ListRequest)
    ensures q.bucket == Bucket && q.prefix == "" && q.delimited
  {
    ListRequest(Bucket, "", true)
  }

  function RollListRequest(roll: string): (q: ListRequest)
    ensures q.bucket == Bucket && q.prefix == roll && !q.delimited
  {
    ListRequest(Bucket, roll, false)
  }

  // ---------------------------------------------------------------- GET /

  /** The roll names of a root listing: one per common prefix, in order, each the
      prefix's text before its first '/'. */
  function RollNames(commonPrefixes: seq<string>): (names: seq<string>)
    ensures |names| == |commonPrefixes|
    ensures forall i :: 0 <= i < |names| ==> names[i] <= commonPrefixes[i] && Delimiter !in names[i]
    ensures forall i :: 0 <= i < |names| ==> names[i] == FirstSegment(commonPrefixes[i])
  {
    seq(|commonPrefixes|, i requires 0 <= i < |commonPrefixes| => FirstSegment(commonPrefixes[i]))
  }

  /** A common prefix `R/` with a slash-free `R` gives back the roll name `R`. */
  lemma {:induction false} RollNamesOfRollPrefixes(rolls: seq<string>, commonPrefixes: seq<string>)
    requires |rolls| == |commonPrefixes|
    requires forall i :: 0 <= i < |rolls| ==> Delimiter !in rolls[i] && commonPrefixes[i] == rolls[i] + [Delimiter]
    ensures RollNames(commonPrefixes) == rolls
  {
    forall i | 0 <= i < |rolls| ensures RollNames(commonPrefixes)[i] == rolls[i] {
      FirstSegmentOfKey(rolls[i], "");
    }
  }

  /** `getFilmRolls`: rejects with the store's error, or resolves to the roll
      names of the root listing. */
  function GetFilmRolls(reply: Result<Listing, string>): (r: Result<seq<string>, string>)
    ensures reply.Err? ==> r == Err(reply.error)
    ensures reply.Ok? ==> r == Ok(RollNames(reply.value.commonPrefixes))
  {
    match reply
    case Err(e) => Err(e)
    case Ok(listing) => Ok(RollNames(listing.commonPrefixes))
  }

  /** GET /: sends the roll names; a failed listing rejects the handler. */
  function ListFilmRolls(reply: Result<Listing, string>): (r: Outcome)
    ensures reply.Err? ==> r == Threw(reply.error)
    ensures reply.Ok? ==> r.Sent? && r.status == 200 && r.body.Items?
    ensures reply.Ok? ==> r.body.items == RollNames(reply.value.commonPrefixes)
  {
    match GetFilmRolls(reply)
    case Err(e) => Threw(e)
    case Ok(rolls) => Sent(200, Items(rolls))
  }

  /** Every roll that has an object holds a '/'-free name and is listed by the
      delimited root listing. */
  lemma RollOfStoredKeyIsListed(store: seq<string>, roll: string, name: string)
    requires Delimiter !in roll
    requires ObjectKey(roll, name) in store
    ensures roll in RollNames(ListObjects(store, RootListRequest()).commonPrefixes)
  {
    var q := RootListRequest();
    var key := ObjectKey(roll, name);
    FirstSegmentOfKey(roll, name);
    assert key[|q.prefix|..] == key;
    assert key[|roll|] == Delimiter;
    assert RolledUp(q, key);
    var l := ListObjects(store, q);
    assert CommonPrefixOf(q, key) == roll + [Delimiter];
    assert roll + [Delimiter] in l.commonPrefixes;
    var i :| 0 <= i < |l.commonPrefixes| && l.commonPrefixes[i] == roll + [Delimiter];
    FirstSegmentOfKey(roll, "");
    assert RollNames(l.commonPrefixes)[i] == roll;
  }

  // ---------------------------------------------------------- GET /:filmroll

  /** The public URL of the object under `key`. */
  function ObjectUrl(key: string): (url: string)
    ensures UrlPrefix <= url && url[|UrlPrefix|..] == key
  {
    UrlPrefix + key
  }

  /** The key a public URL of the bucket names, if it is one. */
  function KeyOfUrl(url: string): (key: Option<string>)
    ensures key.Some? <==> UrlPrefix <= url
    ensures key.Some? ==> key.value == url[|UrlPrefix|..]
  {
    if UrlPrefix <= url then Some(url[|UrlPrefix|..]) else None
  }

  lemma UrlPrefixIsFixed()
    ensures UrlPrefix == "https://film-files.s3.amazonaws.com/"
  {
  }

  /** Stripping the fixed prefix gives back the key. */
  lemma UrlRoundTrip(key: string)
    ensures KeyOfUrl(ObjectUrl(key)) == Some(key)
  {
  }

  /** Distinct keys have distinct URLs. */
  lemma ObjectUrlInjective(key1: string, key2: string)
    requires ObjectUrl(key1) == ObjectUrl(key2)
    ensures key1 == key2
  {
    UrlRoundTrip(key1);
    UrlRoundTrip(key2);
  }

  /** One URL per listed key, in order, each naming that key. */
  function ObjectUrls(keys: seq<string>): (urls: seq<string>)
    ensures |urls| == |keys|
    ensures forall i :: 0 <= i < |urls| ==> KeyOfUrl(urls[i]) == Some(keys[i])
  {
    seq(|keys|, i requires 0 <= i < |keys| => ObjectUrl(keys[i]))
  }

  /** GET /:filmroll: the roll is listed by `RollListRequest(roll)`; a failed
      listing sends 500, otherwise the listed objects' URLs are sent. */
  function ListRollObjects(reply: Result<Listing, string>): (r: Outcome)
    ensures reply.Err? ==> r == Sent(500, Text("Error listing objects"))
    ensures reply.Ok? ==> r.Sent? && r.status == 200 && r.body.Items?
    ensures reply.Ok? ==> |r.body.items| == |reply.value.contents|
    ensures reply.Ok? ==> forall i :: 0 <= i < |r.body.items| ==>
      r.body.items[i] == UrlPrefix + reply.value.contents[i]
  {
    match reply
    case Err(_) => Sent(500, Text("Error listing objects"))
    case Ok(listing) => Sent(200, Items(ObjectUrls(listing.contents)))
  }

  /** Listing a roll by its bare name yields a URL for exactly the stored keys
      that start with that name, keys of a roll `R2` among them for roll `R`. */
  lemma RollListingUrls(store: seq<string>, roll: string)
    ensures ListRollObjects(Ok(ListObjects(store, RollListRequest(roll)))).Sent?
    ensures forall k :: k in store ==>
      (roll <= k <==> ObjectUrl(k) in ListRollObjects(Ok(ListObjects(store, RollListRequest(roll)))).body.items)
  {
    var l := ListObjects(store, RollListRequest(roll));
    var urls := ListRollObjects(Ok(l)).body.items;
    forall k | k in store
      ensures roll <= k <==> ObjectUrl(k) in urls
    {
      if roll <= k {
        var i :| 0 <= i < |l.contents| && l.contents[i] == k;
        assert urls[i] == ObjectUrl(k);
      }
      if ObjectUrl(k) in urls {
        var i :| 0 <= i < |urls| && urls[i] == ObjectUrl(k);
        ObjectUrlInjective(k, l.contents[i]);
      }
    }
  }

  // ------------------------------------------------------- DELETE /:filmroll

  datatype ObjectIdentifier = ObjectIdentifier(key: string)
  datatype DeleteRequest = DeleteRequest(bucket: string, objects: seq<ObjectIdentifier>, quiet: bool)

  /** The deleted keys of a delete request. */
  function DeletedKeys(d: DeleteRequest): (keys: seq<string>)
    ensures |keys| == |d.objects|
    ensures forall i :: 0 <= i < |keys| ==> keys[i] == d.objects[i].key
  {
    seq(|d.objects|, i requires 0 <= i < |d.objects| => d.objects[i].key)
  }

  /** The delete request for the listed keys: bucket `film-files`, not quiet,
      and exactly the listed keys in listing order. */
  function DeleteRequestFor(keys: seq<string>): (d: DeleteRequest)
    ensures d.bucket == Bucket && !d.quiet
    ensures DeletedKeys(d) == keys
  {
    DeleteRequest(Bucket, seq(|keys|, i requires 0 <= i < |keys| => ObjectIdentifier(keys[i])), false)
  }

  /** What DELETE /:filmroll asks the store to delete and what it sends. */
  datatype Deletion = Deletion(request: Option<DeleteRequest>, response: Outcome)

  /** DELETE /:filmroll: a failed listing sends 500 and deletes nothing;
      otherwise the listed keys are deleted and the delete reply decides
      between 500 and "Film roll deleted". */
  function DeleteFilmRoll(listReply: Result<Listing, string>, deleteReply: Result<(), string>): (r: Deletion)
    ensures listReply.Err? ==> r == Deletion(None, Sent(500, Text("Error listing objects")))
    ensures listReply.Ok? ==> r.request.Some? && r.request.value.bucket == Bucket && !r.request.value.quiet
    ensures listReply.Ok? ==> DeletedKeys(r.request.value) == listReply.value.contents
    ensures listReply.Ok? ==> r.response == if deleteReply.Ok? then Sent(200, Text("Film roll deleted"))
                                            else Sent(500, Text("Error deleting objects"))
  {
    match listReply
    case Err(_) => Deletion(None, Sent(500, Text("Error listing objects")))
    case Ok(listing) =>
      var request := DeleteRequestFor(listing.contents);
      match deleteReply
      case Err(_) => Deletion(Some(request), Sent(500, Text("Error deleting objects")))
      case Ok(_) => Deletion(Some(request), Sent(200, Text("Film roll deleted")))
  }

  /** The roll is listed by its bare name, so deleting roll `R` also deletes
      the objects of every roll whose name starts with `R`, such as `R2`. */
  lemma DeletionReachesRollsExtendingName(store: seq<string>, roll: string, other: string, name: string,
                                          deleteReply: Result<(), string>)
    requires roll <= other
    requires ObjectKey(other, name) in store
    ensures ObjectKey(other, name) in
      DeletedKeys(DeleteFilmRoll(Ok(ListObjects(store, RollListRequest(roll))), deleteReply).request.value)
  {
    assert roll <= ObjectKey(other, name);
  }

  /** Deleting a roll deletes each of its objects. */
  lemma DeletionCoversRoll(store: seq<string>, roll: string, deleteReply: Result<(), string>)
    ensures forall name :: ObjectKey(roll, name) in store ==>
      ObjectKey(roll, name) in
        DeletedKeys(DeleteFilmRoll(Ok(ListObjects(store, RollListRequest(roll))), deleteReply).request.value)
  {
    forall name | ObjectKey(roll, name) in store
      ensures ObjectKey(roll, name) in
        DeletedKeys(DeleteFilmRoll(Ok(ListObjects(store, RollListRequest(roll))), deleteReply).request.value)
    {
      DeletionReachesRollsExtendingName(store, roll, roll, name, deleteReply);
    }
  }

  // ------------------------------------------ PUT /:filmroll/:filename/favorite

  datatype GetRequest = GetRequest(bucket: string, key: string)

  /** The object a favourite names: `film-files` and `roll/filename`. */
  function FavoriteRequest(roll: string, filename: string): (q: GetRequest)
    ensures q.bucket == Bucket
    ensures roll + [Delimiter] <= q.key && q.key[|roll| + 1..] == filename
  {
    GetRequest(Bucket, ObjectKey(roll, filename))
  }

  // ------------------------------------------------------------- POST /:filmroll

  /** What POST /:filmroll reads: the route parameter, the reply to the root
      listing that `getFilmRolls` makes, and `req.files` (None when the request
      carried no upload). */
  datatype PostRequest = PostRequest(filmRoll: string, rootReply: Result<Listing, string>, files: Option<UploadedFiles>)

  /** The admission checks of POST /:filmroll. */
  datatype Check = RollGiven | RollsListed | RollIsNew | FilesPresent | FilePresent | IsZip

  /** The order in which the handler makes its checks. */
  const AdmissionChecks: seq<Check> := [RollGiven, RollsListed, RollIsNew, FilesPresent, FilePresent, IsZip]

  /** Whether check `c` passes on `q`, given that the checks before it passed. */
  predicate Holds(c: Check, q: PostRequest) {
    match c
    case RollGiven => q.filmRoll != ""
    case RollsListed => q.rootReply.Ok?
    case RollIsNew => q.rootReply.Ok? ==> q.filmRoll !in RollNames(q.rootReply.value.commonPrefixes)
    case FilesPresent => q.files.Some?
    case FilePresent => q.files.Some? ==> q.files.value.file.Some?
    case IsZip => q.files.Some? && q.files.value.file.Some? ==> Mimetype(q.files.value.file.value) == Some(ZipMimetype)
  }

  /** The outcome when check `c` is the first that fails. */
  function Failure(c: Check, q: PostRequest): Outcome {
    match c
    case RollGiven => Threw("Film roll is required")
    case RollsListed => Threw(match q.rootReply case Err(e) => e case Ok(_) => "")
    case RollIsNew => Sent(400, Text("Film roll already exists"))
    case FilesPresent => Sent(400, Text("No files uploaded"))
    case FilePresent => Sent(400, Text("No files uploaded"))
    case IsZip => Sent(400, Text("File must be a zip"))
  }

  /** The first check of `checks` that fails on `q`, if any. */
  function FirstFailing(checks: seq<Check>, q: PostRequest): (c: Option<Check>)
    ensures c.None? <==> forall i :: 0 <= i < |checks| ==> Holds(checks[i], q)
    ensures c.Some? ==> exists i :: 0 <= i < |checks| && checks[i] == c.value && !Holds(c.value, q) &&
                          forall j :: 0 <= j < i ==> Holds(checks[j], q)
  {
    if checks == [] then None
    else if !Holds(checks[0], q) then Some(checks[0])
    else
      var c := FirstFailing(checks[1..], q);
      assert c.Some? ==> exists i :: 0 <= i < |checks| && checks[i] == c.value && !Holds(c.value, q) &&
                          forall j :: 0 <= j < i ==> Holds(checks[j], q) by {
        if c.Some? {
          var i :| 0 <= i < |checks[1..]| && checks[1..][i] == c.value && !Holds(c.value, q) &&
                   forall j :: 0 <= j < i ==> Holds(checks[1..][j], q);
          assert checks[i + 1] == c.value;
          assert forall j :: 0 <= j < i + 1 ==> Holds(checks[j], q) by {
            forall j | 0 <= j < i + 1 ensures Holds(checks[j], q) {
              if j > 0 { assert checks[j] == checks[1..][j - 1]; }
            }
          }
        }
      }
      c
  }

  /** The admission checks unrolled: which check fails first on `q`. */
  lemma FirstFailingAdmission(q: PostRequest)
    ensures FirstFailing(AdmissionChecks, q) ==
      if !Holds(RollGiven, q) then Some(RollGiven)
      else if !Holds(RollsListed, q) then Some(RollsListed)
      else if !Holds(RollIsNew, q) then Some(RollIsNew)
      else if !Holds(FilesPresent, q) then Some(FilesPresent)
      else if !Holds(FilePresent, q) then Some(FilePresent)
      else if !Holds(IsZip, q) then Some(IsZip)
      else None
  {
    var c0 := AdmissionChecks;
    var c1 := [RollsListed, RollIsNew, FilesPresent, FilePresent, IsZip];
    var c2 := [RollIsNew, FilesPresent, FilePresent, IsZip];
    var c3 := [FilesPresent, FilePresent, IsZip];
    var c4 := [FilePresent, IsZip];
    var c5 := [IsZip];
    assert c0[1..] == c1 && c1[1..] == c2 && c2[1..] == c3 && c3[1..] == c4 && c4[1..] == c5 && c5[1..] == [];
    assert FirstFailing(c5, q) == if !Holds(IsZip, q) then Some(IsZip) else FirstFailing([], q);
    assert FirstFailing(c4, q) == if !Holds(FilePresent, q) then Some(FilePresent) else FirstFailing(c5, q);
    assert FirstFailing(c3, q) == if !Holds(FilesPresent, q) then Some(FilesPresent) else FirstFailing(c4, q);
    assert FirstFailing(c2, q) == if !Holds(RollIsNew, q) then Some(RollIsNew) else FirstFailing(c3, q);
    assert FirstFailing(c1, q) == if !Holds(RollsListed, q) then Some(RollsListed) else FirstFailing(c2, q);
    assert FirstFailing(c0, q) == if !Holds(RollGiven, q) then Some(RollGiven) else FirstFailing(c1, q);
  }

  /** POST /:filmroll: the first failing admission check decides the outcome;
      when every check passes, the job for the roll is dispatched and
      "Files uploaded" is sent. */
  function PostFilmRoll(q: PostRequest): (r: Outcome)
    ensures match FirstFailing(AdmissionChecks, q)
            case Some(c) => r == Failure(c, q)
            case None => q.files.Some? &&
                         r == Dispatched(Job(q.files.value, q.filmRoll, Bucket, q.filmRoll), Text("Files uploaded"))
  {
    FirstFailingAdmission(q);
    if q.filmRoll == "" then Threw("Film roll is required")
    else match GetFilmRolls(q.rootReply)
      case Err(e) => Threw(e)
      case Ok(filmRolls) =>
        if q.filmRoll in filmRolls then Sent(400, Text("Film roll already exists"))
        else if q.files.None? then Sent(400, Text("No files uploaded"))
        else if q.files.value.file.None? then Sent(400, Text("No files uploaded"))
        else if Mimetype(q.files.value.file.value) != Some(ZipMimetype) then Sent(400, Text("File must be a zip"))
        else Dispatched(Job(q.files.value, q.filmRoll, Bucket, q.filmRoll), Text("Files uploaded"))
  }

  /** The job is dispatched exactly when every admission check passes. */
  lemma DispatchedIffAllChecksPass(q: PostRequest)
    ensures PostFilmRoll(q).Dispatched? <==> forall i :: 0 <= i < |AdmissionChecks| ==> Holds(AdmissionChecks[i], q)
  {
    var c := FirstFailing(AdmissionChecks, q);
    if c.Some? {
      assert !Failure(c.value, q).Dispatched?;
    }
  }

  /** The existence test is exact membership: a listed `roll2` does not block
      `roll`, a listed `roll` does, whatever else the request holds. */
  lemma ExistenceIsExactMatch(roll: string, other: string, files: Option<UploadedFiles>)
    requires roll != "" && Delimiter !in roll && Delimiter !in other
    ensures PostFilmRoll(PostRequest(roll, Ok(Listing([roll + [Delimiter]], [])), files))
         == Sent(400, Text("Film roll already exists"))
    ensures roll != other ==>
      PostFilmRoll(PostRequest(roll, Ok(Listing([other + [Delimiter]], [])), files))
         != Sent(400, Text("Film roll already exists"))
  {
    RollNamesOfRollPrefixes([roll], [roll + [Delimiter]]);
    RollNamesOfRollPrefixes([other], [other + [Delimiter]]);
  }

  /** A roll that already has an object in the store cannot be uploaded again. */
  lemma StoredRollIsRejected(store: seq<string>, roll: string, name: string, files: Option<UploadedFiles>)
    requires roll != "" && Delimiter !in roll
    requires ObjectKey(roll, name) in store
    ensures PostFilmRoll(PostRequest(roll, Ok(ListObjects(store, RootListRequest())), files))
         == Sent(400, Text("Film roll already exists"))
  {
    RollOfStoredKeyIsListed(store, roll, name);
  }

  /** Several files under the field `file` are rejected as not a zip, even when
      every one of them is a zip, once the earlier checks pass. */
  lemma SeveralFilesAreNotAZip(roll: string, listing: Listing, uploads: seq<UploadedFile>)
    requires roll != "" && roll !in RollNames(listing.commonPrefixes)
    ensures PostFilmRoll(PostRequest(roll, Ok(listing), Some(UploadedFiles(Some(Many(uploads))))))
         == Sent(400, Text("File must be a zip"))
  {
  }

  /** A roll name holding '/' (the route parameter `a%2Fb` decodes to `a/b`) gets
      past the existence test although its keys fall inside the existing roll `a`. */
  lemma SlashedRollPassesExistenceTest(files: Option<UploadedFiles>)
    ensures PostFilmRoll(PostRequest("a/b", Ok(ListObjects(["a/b/c"], RootListRequest())), files))
         != Sent(400, Text("Film roll already exists"))
  {
    var q := RootListRequest();
    var store := ["a/b/c"];
    assert store[..0] == [];
    assert FirstSegment("a/b/c") == "a" by {
      FirstSegmentUnique("a/b/c", "a");
    }
    assert "a/b/c"[|q.prefix|..] == "a/b/c";
    assert RolledUp(q, "a/b/c");
    assert CommonPrefixOf(q, "a/b/c") == "a/";
    assert ListObjects(store[..0], q) == Listing([], []);
    assert ListObjects(store, q).commonPrefixes == ["a/"];
    assert FirstSegment("a/") == "a" by {
      FirstSegmentUnique("a/", "a");
    }
    assert RollNames(["a/"]) == ["a"];
  }

  // ------------------------------------------------------------ uploadFilesToS3

  /** The parameters of one member's upload call (its body stream is not modelled). */
  datatype UploadRequest = UploadRequest(bucket: string, key: string)

  /** The keys of the members of a roll, one per member, in member order. */
  function MemberKeys(roll: string, members: seq<string>): (keys: seq<string>)
    ensures |keys| == |members|
    ensures forall i :: 0 <= i < |keys| ==> roll + [Delimiter] <= keys[i] && keys[i][|roll| + 1..] == members[i]
  {
    seq(|members|, i requires 0 <= i < |members| => ObjectKey(roll, members[i]))
  }

  /** Whether the store accepts the upload of `member`. */
  predicate Accepted(createUpload: UploadRequest -> Result<(), string>, bucket: string, roll: string, member: string) {
    createUpload(UploadRequest(bucket, ObjectKey(roll, member))).Ok?
  }

  /** `uploadFilesToS3` once the archive is staged and extracted: `moveReply`
      is the reply to moving the upload to the staging folder, `members` the
      names found in the extraction folder, and `createUpload` the store's reply
      to each upload call. A member's key is recorded only after its upload
      succeeds; the first failing upload ends the run with its error. */
  method UploadFilesToS3(filmRoll: string, bucket: string, moveReply: Result<(), string>, members: seq<string>,
                         createUpload: UploadRequest -> Result<(), string>)
    returns (r: Result<seq<string>, string>)
    ensures moveReply.Err? ==> r == Err("Error uploading files")
    ensures r.Ok? <==> moveReply.Ok? && forall i :: 0 <= i < |members| ==> Accepted(createUpload, bucket, filmRoll, members[i])
    ensures r.Ok? ==> r.value == MemberKeys(filmRoll, members)
    ensures moveReply.Ok? && r.Err? ==>
      exists i :: 0 <= i < |members| &&
        (forall j :: 0 <= j < i ==> Accepted(createUpload, bucket, filmRoll, members[j])) &&
        createUpload(UploadRequest(bucket, ObjectKey(filmRoll, members[i]))).Err? &&
        r.error == "Error uploading to S3: " + createUpload(UploadRequest(bucket, ObjectKey(filmRoll, members[i]))).error
  {
    if moveReply.Err? {
      return Err("Error uploading files");
    }
    var urls: seq<string> := [];
    var i := 0;
    while i < |members|
      invariant 0 <= i <= |members|
      invariant |urls| == i
      invariant forall j :: 0 <= j < i ==> urls[j] == ObjectKey(filmRoll, members[j])
      invariant forall j :: 0 <= j < i ==> Accepted(createUpload, bucket, filmRoll, members[j])
    {
      var params := UploadRequest(bucket, ObjectKey(filmRoll, members[i]));
      match createUpload(params)
      case Err(message) =>
        return Err("Error uploading to S3: " + message);
      case Ok(_) =>
        urls := urls + [params.key];
      i := i + 1;
    }
    return Ok(urls);
  }

  /** Distinct member names give distinct keys. */
  lemma MemberKeysDistinct(roll: string, members: seq<string>)
    requires forall i, j :: 0 <= i < j < |members| ==> members[i] != members[j]
    ensures forall i, j :: 0 <= i < j < |members| ==> MemberKeys(roll, members)[i] != MemberKeys(roll, members)[j]
  {
  }

  /** In a bucket that holds the member keys of a roll after its earlier
      objects, listing the roll returns every one of those keys. */
  lemma UploadedKeysAreListed(store: seq<string>, roll: string, members: seq<string>)
    ensures forall k :: k in MemberKeys(roll, members) ==>
      k in ListObjects(store + MemberKeys(roll, members), RollListRequest(roll)).contents
  {
  }

  /** In a bucket that holds the key of at least one member of a roll, the
      roll exists: an upload to it is rejected. */
  lemma UploadedRollIsRejected(store: seq<string>, roll: string, members: seq<string>, files: Option<UploadedFiles>)
    requires roll != "" && Delimiter !in roll && members != []
    ensures PostFilmRoll(PostRequest(roll, Ok(ListObjects(store + MemberKeys(roll, members), RootListRequest())), files))
         == Sent(400, Text("Film roll already exists"))
  {
    var keys := MemberKeys(roll, members);
    assert keys[0] == ObjectKey(roll, members[0]);
    assert (store + keys)[|store|] == keys[0];
    StoredRollIsRejected(store + keys, roll, members[0], files);
  }
}
