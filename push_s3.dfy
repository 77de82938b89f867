/** Attachment upload to the blob store (aws/push_s3.py). The store is a
    class whose one field lists the objects put so far; whether the client
    could be built and `put_object` succeeded is a parameter. */
module PushS3 {
  import opened Common
  import opened Settings

  type Bytes = seq<bv8>

  /** One `put_object` request that the store accepted. */
  datatype S3Object = S3Object(bucket: string, key: string, body: Bytes, contentType: Option<string>)

  const KeyPrefix := "emails/"
  const KeyInfix := "/attachments/"

  /** `emails/{email_id}/attachments/{uuid}_{file_name}`; a missing file name renders as "None". */
  function S3Key(emailId: string, fileUuid: string, fileName: Option<string>): string {
    KeyPrefix + emailId + KeyInfix + fileUuid + "_" + Render(fileName)
  }

  /** `{AWS_ENDPOINT_URL}/{S3_BUCKET_NAME}/{key}`; an unset endpoint renders as "None". */
  function S3Url(cfg: Config, key: string): string {
    Render(cfg.awsEndpointUrl) + "/" + cfg.s3BucketName + "/" + key
  }

  /** ContentType goes into the request only when the content type is truthy. */
  function ContentTypeParam(contentType: Option<string>): (p: Option<string>)
    ensures p.Some? <==> Truthy(contentType)
    ensures p.Some? ==> p == contentType
  {
    if Truthy(contentType) then contentType else None
  }

  /** Every key lies under `emails/{email_id}/attachments/`, and the uuid
      sits right after that prefix, so two uploads for one message whose
      uuids differ (uuid4 strings all have one length) never share a key,
      whatever the file names. */
  lemma KeysNamespacedAndDistinct(emailId: string, uuid1: string, uuid2: string, name1: Option<string>, name2: Option<string>)
    requires |uuid1| == |uuid2| && uuid1 != uuid2
    ensures IsPrefix(KeyPrefix + emailId + KeyInfix, S3Key(emailId, uuid1, name1))
    ensures S3Key(emailId, uuid1, name1) != S3Key(emailId, uuid2, name2)
  {
    var p := KeyPrefix + emailId + KeyInfix;
    var k1 := S3Key(emailId, uuid1, name1);
    var k2 := S3Key(emailId, uuid2, name2);
    assert k1 == p + (uuid1 + "_" + Render(name1));
    assert k2 == p + (uuid2 + "_" + Render(name2));
    assert k1[..|p|] == p;
    assert k1[|p|..|p| + |uuid1|] == uuid1;
    assert k2[|p|..|p| + |uuid2|] == uuid2;
  }

  /** The URL is the endpoint (or "None"), the bucket and the key, in that order. */
  lemma UrlLayout(cfg: Config, key: string)
    ensures IsPrefix(Render(cfg.awsEndpointUrl) + "/" + cfg.s3BucketName + "/", S3Url(cfg, key))
    ensures S3Url(cfg, key)[|S3Url(cfg, key)| - |key|..] == key
    ensures |S3Url(cfg, key)| == |Render(cfg.awsEndpointUrl)| + |cfg.s3BucketName| + |key| + 2
    ensures cfg.awsEndpointUrl.None? ==> IsPrefix("None/", S3Url(cfg, key))
  {
    var u := S3Url(cfg, key);
    var p := Render(cfg.awsEndpointUrl) + "/" + cfg.s3BucketName + "/";
    assert u == p + key;
    assert u[..|p|] == p;
    if cfg.awsEndpointUrl.None? {
      assert u == "None/" + (cfg.s3BucketName + "/" + key);
    }
  }

  /** The bucket, as the sequence of objects put into it. */
  class Bucket {
    var objects: seq<S3Object>

    constructor ()
      ensures objects == []
    {
      objects := [];
    }

    /** upload_attachment_to_s3: puts one object under a fresh key and returns
        its URL; any failure (client construction or `put_object`) returns
        None and stores nothing. */
    method UploadAttachment(cfg: Config, data: Bytes, fileName: Option<string>, emailId: string,
                            contentType: Option<string>, fileUuid: string, putSucceeds: bool)
      returns (url: Option<string>)
      modifies this
      ensures putSucceeds ==> url == Some(S3Url(cfg, S3Key(emailId, fileUuid, fileName)))
      ensures putSucceeds ==>
        objects == old(objects) + [S3Object(cfg.s3BucketName, S3Key(emailId, fileUuid, fileName), data, ContentTypeParam(contentType))]
      ensures !putSucceeds ==> url == None && objects == old(objects)
      ensures url.Some? ==> Truthy(url)
    {
      if !putSucceeds {
        return None;
      }
      var key := S3Key(emailId, fileUuid, fileName);
      objects := objects + [S3Object(cfg.s3BucketName, key, data, ContentTypeParam(contentType))];
      url := Some(S3Url(cfg, key));
    }
  }
}
