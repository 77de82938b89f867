/** Attachment processing for one stored message (graph/attachments.py):
    list the message's attachments, and for each one that is not inline and
    carries content, decode it, upload it to the bucket and record it in
    `invoice_documents`, counting those that get a document id.

    Each outcome the code cannot see in advance is part of an
    AttachmentEnv: the listing response, base64 decoding (None when it
    raises), and, per attachment position, whether the upload succeeds, the
    fresh uuid of its key, the document insert's storage outcome and the
    fresh document id. */
module Attachments {
  import opened Common
  import opened Settings
  import opened PushS3
  import DocumentType
  import opened DocumentRecords
  import opened Db

  /** One entry of the listing: absent keys of the JSON object are None,
      and a missing or null `isInline` is false. */
  datatype Attachment = Attachment(
    name: Option<string>,
    contentType: Option<string>,
    size: Option<int>,
    isInline: bool,
    contentBytes: Option<string>)

  datatype AttachmentEnv = AttachmentEnv(
    listing: Result<seq<Attachment>>,
    decode: string -> Option<Bytes>,
    uploadOk: nat -> bool,
    fileUuid: nat -> string,
    documentCall: nat -> DbCall,
    documentId: nat -> string)

  /** What attachment processing touches: the bucket's objects, the document
      table and the running count. */
  datatype AttState = AttState(objects: seq<S3Object>, documents: seq<DocumentRow>, count: nat)

  /** The loop body for the attachment at position `idx`. */
  function ItemStep(cfg: Config, env: AttachmentEnv, emailId: string, workId: string, st: AttState, idx: nat, a: Attachment): AttState {
    if a.isInline || !Truthy(a.contentBytes) then st
    else
      match env.decode(a.contentBytes.value)
      case None => st
      case Some(data) =>
        if !env.uploadOk(idx) then st
        else
          var key := S3Key(emailId, env.fileUuid(idx), a.name);
          var objects := st.objects + [S3Object(cfg.s3BucketName, key, data, ContentTypeParam(a.contentType))];
          if env.documentCall(idx) != Completed then st.(objects := objects)
          else
            match BuildDocumentRow(env.documentId(idx), workId, a.name, a.size, a.contentType, S3Url(cfg, key))
            case Err(_) => st.(objects := objects)
            case Ok(row) =>
              AttState(objects, st.documents + [row], if env.documentId(idx) != "" then st.count + 1 else st.count)
  }

  /** The loop over atts[i..], from state st. */
  function Fold(cfg: Config, env: AttachmentEnv, emailId: string, workId: string, st: AttState, atts: seq<Attachment>, i: nat): AttState
    requires i <= |atts|
    decreases |atts| - i
  {
    if i == |atts| then st
    else Fold(cfg, env, emailId, workId, ItemStep(cfg, env, emailId, workId, st, i, atts[i]), atts, i + 1)
  }

  /** process_attachments as a function of the stores it changes: a failed
      listing or an empty one returns 0 and changes nothing. */
  function ProcessSpec(cfg: Config, env: AttachmentEnv, emailId: string, workId: string,
                       objects: seq<S3Object>, documents: seq<DocumentRow>): AttState
  {
    var start := AttState(objects, documents, 0);
    match env.listing
    case Err(_) => start
    case Ok(atts) => if |atts| == 0 then start else Fold(cfg, env, emailId, workId, start, atts, 0)
  }

  /** Whether the attachment at position idx ends up counted; this depends
      on that attachment and its own outcomes only. */
  predicate ItemCounted(cfg: Config, env: AttachmentEnv, emailId: string, workId: string, a: Attachment, idx: nat) {
    && !a.isInline
    && Truthy(a.contentBytes)
    && env.decode(a.contentBytes.value).Some?
    && env.uploadOk(idx)
    && env.documentCall(idx) == Completed
    && a.name.Some? && DocumentType.GetDocumentType(a.name.value).Ok?
    && env.documentId(idx) != ""
  }

  /** How many of atts[i..] are counted. */
  function Successes(cfg: Config, env: AttachmentEnv, emailId: string, workId: string, atts: seq<Attachment>, i: nat): (n: nat)
    requires i <= |atts|
    ensures n <= |atts| - i
    decreases |atts| - i
  {
    if i == |atts| then 0
    else (if ItemCounted(cfg, env, emailId, workId, atts[i], i) then 1 else 0) + Successes(cfg, env, emailId, workId, atts, i + 1)
  }

  /** One step adds at most one object and at most one document, a document
      only together with its object, and counts exactly the attachments
      ItemCounted describes; stored objects and rows are never removed. */
  lemma ItemStepEffect(cfg: Config, env: AttachmentEnv, emailId: string, workId: string, st: AttState, idx: nat, a: Attachment)
    ensures var r := ItemStep(cfg, env, emailId, workId, st, idx, a);
      && r.count == st.count + (if ItemCounted(cfg, env, emailId, workId, a, idx) then 1 else 0)
      && |st.objects| <= |r.objects| <= |st.objects| + 1 && r.objects[..|st.objects|] == st.objects
      && |st.documents| <= |r.documents| <= |st.documents| + 1 && r.documents[..|st.documents|] == st.documents
      && |r.documents| - |st.documents| <= |r.objects| - |st.objects|
      && r.count - st.count <= |r.documents| - |st.documents|
  {
    var r := ItemStep(cfg, env, emailId, workId, st, idx, a);
    if !a.isInline && Truthy(a.contentBytes) && env.decode(a.contentBytes.value).Some? && env.uploadOk(idx)
       && env.documentCall(idx) == Completed {
      var key := S3Key(emailId, env.fileUuid(idx), a.name);
      var built := BuildDocumentRow(env.documentId(idx), workId, a.name, a.size, a.contentType, S3Url(cfg, key));
      assert built.Ok? <==> a.name.Some? && DocumentType.GetDocumentType(a.name.value).Ok?;
    }
  }

  /** Over the whole loop: the count is the number of attachments that
      individually succeed, so a failure on one attachment does not stop or
      affect the others; every counted attachment has its own document row
      and every row its own uploaded object; the stores only grow. */
  lemma {:induction false} FoldEffect(cfg: Config, env: AttachmentEnv, emailId: string, workId: string, st: AttState, atts: seq<Attachment>, i: nat)
    requires i <= |atts|
    ensures var r := Fold(cfg, env, emailId, workId, st, atts, i);
      && r.count == st.count + Successes(cfg, env, emailId, workId, atts, i)
      && |st.objects| <= |r.objects| && r.objects[..|st.objects|] == st.objects
      && |st.documents| <= |r.documents| && r.documents[..|st.documents|] == st.documents
      && r.count - st.count <= |r.documents| - |st.documents| <= |r.objects| - |st.objects| <= |atts| - i
    decreases |atts| - i
  {
    if i < |atts| {
      var mid := ItemStep(cfg, env, emailId, workId, st, i, atts[i]);
      ItemStepEffect(cfg, env, emailId, workId, st, i, atts[i]);
      FoldEffect(cfg, env, emailId, workId, mid, atts, i + 1);
      var r := Fold(cfg, env, emailId, workId, mid, atts, i + 1);
      assert r.objects[..|st.objects|] == r.objects[..|mid.objects|][..|st.objects|];
      assert r.documents[..|st.documents|] == r.documents[..|mid.documents|][..|st.documents|];
    }
  }

  /** The returned count: 0 for a failed or empty listing, which also leaves
      both stores alone; otherwise the number of listed attachments that
      succeed, hence never more than the listing holds. */
  lemma CountBounded(cfg: Config, env: AttachmentEnv, emailId: string, workId: string, objects: seq<S3Object>, documents: seq<DocumentRow>)
    ensures var r := ProcessSpec(cfg, env, emailId, workId, objects, documents);
      && (env.listing.Err? || env.listing.value == [] ==> r == AttState(objects, documents, 0))
      && (env.listing.Ok? ==> r.count == Successes(cfg, env, emailId, workId, env.listing.value, 0) <= |env.listing.value|)
      && r.count <= |r.documents| - |documents| <= |r.objects| - |objects|
      && r.objects[..|objects|] == objects && r.documents[..|documents|] == documents
  {
    var start := AttState(objects, documents, 0);
    if env.listing.Ok? {
      FoldEffect(cfg, env, emailId, workId, start, env.listing.value, 0);
    }
  }

  /** Inline attachments and attachments without content are skipped: not
      uploaded, not recorded, not counted. */
  lemma SkippedUncounted(cfg: Config, env: AttachmentEnv, emailId: string, workId: string, st: AttState, idx: nat, a: Attachment)
    requires a.isInline || !Truthy(a.contentBytes)
    ensures ItemStep(cfg, env, emailId, workId, st, idx, a) == st
    ensures !ItemCounted(cfg, env, emailId, workId, a, idx)
  {
  }

  /** A content that does not decode is caught for that attachment alone:
      the state is as before and the loop goes on. */
  lemma UndecodableIsolated(cfg: Config, env: AttachmentEnv, emailId: string, workId: string, st: AttState, atts: seq<Attachment>, i: nat)
    requires i < |atts| && !atts[i].isInline && Truthy(atts[i].contentBytes)
    requires env.decode(atts[i].contentBytes.value).None?
    ensures Fold(cfg, env, emailId, workId, st, atts, i) == Fold(cfg, env, emailId, workId, st, atts, i + 1)
  {
  }

  /** The upload comes before the type check: an attachment with an
      unsupported extension leaves its object in the bucket, with no
      document row and no count. */
  lemma UnsupportedLeavesOrphan(cfg: Config, env: AttachmentEnv, emailId: string, workId: string, st: AttState, idx: nat, a: Attachment)
    requires !a.isInline && Truthy(a.contentBytes) && env.decode(a.contentBytes.value).Some? && env.uploadOk(idx)
    requires a.name.Some? && DocumentType.GetDocumentType(a.name.value).Err?
    ensures var r := ItemStep(cfg, env, emailId, workId, st, idx, a);
      && r.objects == st.objects + [S3Object(cfg.s3BucketName, S3Key(emailId, env.fileUuid(idx), a.name),
                                             env.decode(a.contentBytes.value).value, ContentTypeParam(a.contentType))]
      && r.documents == st.documents && r.count == st.count
  {
    var key := S3Key(emailId, env.fileUuid(idx), a.name);
    var built := BuildDocumentRow(env.documentId(idx), workId, a.name, a.size, a.contentType, S3Url(cfg, key));
    assert built.Err?;
  }

  /** One pass of the loop of process_attachments over the attachment at
      position idx: the stores and the count end as ItemStep says. */
  method ProcessItem(db: Database, bucket: Bucket, cfg: Config, env: AttachmentEnv, emailId: string, workId: string,
                     count: nat, idx: nat, a: Attachment)
    returns (count': nat)
    modifies db, bucket
    ensures AttState(bucket.objects, db.documents, count')
         == ItemStep(cfg, env, emailId, workId, AttState(old(bucket.objects), old(db.documents), count), idx, a)
    ensures db.emails == old(db.emails) && db.scanner == old(db.scanner)
  {
    count' := count;
    if a.isInline || !Truthy(a.contentBytes) {
      return;
    }
    var data := env.decode(a.contentBytes.value);
    if data.None? {
      return;
    }
    var url := bucket.UploadAttachment(cfg, data.value, a.name, emailId, a.contentType, env.fileUuid(idx), env.uploadOk(idx));
    // An upload URL is never empty, so `not s3_url` is exactly a failed upload.
    if url.None? {
      return;
    }
    var docId := db.InsertDocument(workId, a.name, a.size, a.contentType, url.value, env.documentId(idx), env.documentCall(idx));
    if docId.Some? && docId.value != "" {
      count' := count + 1;
    }
  }

  /** process_attachments. The `attachments` argument is ignored: the
      listing is always fetched again. */
  method ProcessAttachments(db: Database, bucket: Bucket, cfg: Config, env: AttachmentEnv, emailId: string, workId: string,
                            attachments: Option<seq<Attachment>>)
    returns (count: nat)
    modifies db, bucket
    ensures var r := ProcessSpec(cfg, env, emailId, workId, old(bucket.objects), old(db.documents));
      bucket.objects == r.objects && db.documents == r.documents && count == r.count
    ensures db.emails == old(db.emails) && db.scanner == old(db.scanner)
  {
    count := 0;
    if env.listing.Err? {
      return;
    }
    var atts := env.listing.value;
    if |atts| == 0 {
      return;
    }
    ghost var start := AttState(bucket.objects, db.documents, 0);
    var i := 0;
    while i < |atts|
      invariant 0 <= i <= |atts|
      invariant Fold(cfg, env, emailId, workId, AttState(bucket.objects, db.documents, count), atts, i)
             == Fold(cfg, env, emailId, workId, start, atts, 0)
      invariant db.emails == old(db.emails) && db.scanner == old(db.scanner)
    {
      count := ProcessItem(db, bucket, cfg, env, emailId, workId, count, i, atts[i]);
      i := i + 1;
    }
  }
}
