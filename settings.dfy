/** Settings derived from environment variables at import time
    (config/settings.py). Each environment variable is an Option: None when
    it is unset, Some(v) when it is set, possibly to "". */
module Settings {
  import opened Common

  const DefaultGraphApiEndpoint := "https://graph.microsoft.com/v1.0"
  const DefaultAwsRegion := "us-east-1"
  const DefaultBucketName := "invoice-attachments"
  /** Account segment LocalStack queue URLs carry in place of a real account id. */
  const LocalStackAccount := "000000000000"

  /** `os.getenv(name, default)`: a variable set to "" keeps "", only an unset one defaults. */
  function GetEnv(v: Option<string>, default: string): (r: string)
    ensures v.None? ==> r == default
    ensures v.Some? ==> r == v.value
  {
    v.GetOr(default)
  }

  /** The settings the scan pipeline reads. */
  datatype Config = Config(graphApiEndpoint: string, awsEndpointUrl: Option<string>, s3BucketName: string)

  function LoadConfig(graphApiEndpoint: Option<string>, awsEndpointUrl: Option<string>, s3BucketName: Option<string>): (c: Config)
    ensures graphApiEndpoint.None? ==> c.graphApiEndpoint == DefaultGraphApiEndpoint
    ensures s3BucketName.None? ==> c.s3BucketName == DefaultBucketName
    ensures c.awsEndpointUrl == awsEndpointUrl
  {
    Config(GetEnv(graphApiEndpoint, DefaultGraphApiEndpoint), awsEndpointUrl, GetEnv(s3BucketName, DefaultBucketName))
  }

  /** SQS_QUEUE_URL: built from the queue name only when SQS_QUEUE_NAME is
      truthy; LocalStack (an endpoint set) gets the fixed dummy account,
      otherwise the regional AWS host with AWS_ACCOUNT_ID (rendered "None"
      when unset). */
  function SqsQueueUrl(queueName: Option<string>, endpoint: Option<string>, region: Option<string>, accountId: Option<string>): (r: Option<string>)
    ensures r.Some? <==> Truthy(queueName)
    ensures r.Some? ==> Truthy(r) && IsSuffix("/" + queueName.value, r.value)
    ensures r.Some? && Truthy(endpoint) ==> IsPrefix(endpoint.value + "/" + LocalStackAccount + "/", r.value)
    ensures r.Some? && !Truthy(endpoint) ==>
      IsPrefix("https://sqs." + GetEnv(region, DefaultAwsRegion) + ".amazonaws.com/" + Render(accountId) + "/", r.value)
    ensures r.Some? && Truthy(endpoint) ==>
      |r.value| == |endpoint.value + "/" + LocalStackAccount + "/"| + |queueName.value|
    ensures r.Some? && !Truthy(endpoint) ==>
      |r.value| == |"https://sqs." + GetEnv(region, DefaultAwsRegion) + ".amazonaws.com/" + Render(accountId) + "/"| + |queueName.value|
  {
    if Truthy(queueName) then
      var head := if Truthy(endpoint) then endpoint.value + "/" + LocalStackAccount
                  else "https://sqs." + GetEnv(region, DefaultAwsRegion) + ".amazonaws.com/" + Render(accountId);
      ConcatParts(head + "/", queueName.value);
      assert head + "/" + queueName.value == head + ("/" + queueName.value);
      ConcatParts(head, "/" + queueName.value);
      Some(head + "/" + queueName.value)
    else
      None
  }

  /** The values VERIFY_SSL accepts as "on", compared after lower-casing. */
  const SslOnValues: set<string> := {"true", "1", "yes"}

  /** VERIFY_SSL: on when unset, otherwise on exactly for true/1/yes in any letter case. */
  function VerifySsl(v: Option<string>): (on: bool)
    ensures v.None? ==> on
    ensures v.Some? ==> (on <==> Lower(v.value) in SslOnValues)
  {
    assert Lower("true") == "true";
    Lower(GetEnv(v, "true")) in SslOnValues
  }

  /** Letter case never matters to VERIFY_SSL, and every other spelling
      ("false", "0", "no", "", "on", ...) switches verification off. */
  lemma VerifySslCaseInsensitive(s: string, t: string)
    requires Lower(s) == Lower(t)
    ensures VerifySsl(Some(s)) == VerifySsl(Some(t))
    ensures VerifySsl(Some(s)) ==> |s| == 1 || |s| == 3 || |s| == 4
  {
  }
}
