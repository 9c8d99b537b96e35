/**
 * `tag_resource_with_service_api` of apply_tags.py: tags one resource of a
 * service that the Resource Groups Tagging API does not handle, through
 * that service's own API. S3 replaces the whole tag set of a bucket, so the
 * bucket's tags are read first and merged with the new ones.
 */
module ServiceAdapter {
  import opened Wrappers
  import opened PyStrings
  import opened TagParser
  import opened AwsApi
  import opened Dispatch

  /** `arn.split(':::')[-1]`. */
  function BucketName(arn: string): string {
    var parts := Split(arn, ":::");
    parts[|parts| - 1]
  }

  /**
   * The bucket name is the tail of the ARN after the last ":::" that the
   * left-to-right split cuts at; it holds no ":::" itself, and it is the
   * whole ARN when the ARN holds no ":::".
   */
  lemma BucketNameIsLastField(arn: string)
    ensures !Occurs(":::", BucketName(arn))
    ensures |BucketName(arn)| <= |arn| && arn[|arn| - |BucketName(arn)|..] == BucketName(arn)
    ensures if Occurs(":::", arn)
      then |BucketName(arn)| + 3 <= |arn| && arn[|arn| - |BucketName(arn)| - 3..|arn| - |BucketName(arn)|] == ":::"
      else BucketName(arn) == arn
  {
    var parts := Split(arn, ":::");
    var bucket := parts[|parts| - 1];
    SplitPartsFree(arn, ":::");
    SplitJoin(arn, ":::");
    if Occurs(":::", arn) {
      SplitWithSeparator(arn, ":::");
      JoinLast(parts, ":::");
      var head := Join(parts[..|parts| - 1], ":::");
      assert arn == head + ":::" + bucket;
      assert arn[|arn| - |bucket|..] == bucket;
    } else {
      SplitNoSeparator(arn, ":::");
    }
  }

  /** `combined = existing.copy(); combined.update(tags)`: the new values win. */
  function MergeTags(existing: TagMap, newTags: TagMap): (combined: TagMap)
    ensures combined.Keys == existing.Keys + newTags.Keys
    ensures forall k :: k in newTags ==> combined[k] == newTags[k]
    ensures forall k :: k in existing && k !in newTags ==> combined[k] == existing[k]
  {
    existing + newTags
  }

  /**
   * The bucket's existing tags: those of the tag set read, later entries
   * overwriting earlier ones, or none at all when the read raised a
   * `ClientError` ("NoSuchTagSet" or any other code).
   */
  function ExistingTags(read: TagRead): TagMap
    requires !read.ReadRaised?
  {
    match read
    case TagSetReply(tagSet) => DictOf(tagSet)
    case ReadClientError(_, _) => map[]
  }

  /** Whether the call succeeded, and the calls it made, in order. */
  datatype Outcome = Outcome(ok: bool, requests: seq<Request>)

  /**
   * What `tag_resource_with_service_api` does: one call for appconfig and
   * route53resolver, a read and a write of the merged tag set for s3, and
   * no call at all, with result False, for any other service. Any
   * exception that reaches its `except Exception` gives False.
   */
  function ServiceApiCall(arn: string, tags: TagMap, service: Option<string>, aws: Aws): (out: Outcome)
    ensures out.ok ==> service.Some? && service.value in UNSUPPORTED_SERVICES
    ensures !(service.Some? && service.value in UNSUPPORTED_SERVICES) ==> out == Outcome(false, [])
    ensures service.Some? && service.value in UNSUPPORTED_SERVICES ==> out.requests != []
  {
    if service == Some("appconfig") then
      var reply := aws.appconfigTagResource(arn, tags);
      Outcome(reply.Done?, [AppConfigTagResource(arn, tags)])
    else if service == Some("s3") then
      var bucket := BucketName(arn);
      var read := aws.s3GetBucketTagging(bucket);
      if read.ReadRaised? then Outcome(false, [S3GetBucketTagging(bucket)])
      else
        var combined := MergeTags(ExistingTags(read), tags);
        var reply := aws.s3PutBucketTagging(bucket, combined);
        Outcome(reply.Done?, [S3GetBucketTagging(bucket), S3PutBucketTagging(bucket, combined)])
    else if service == Some("route53resolver") then
      var reply := aws.route53resolverTagResource(arn, tags);
      Outcome(reply.Done?, [Route53ResolverTagResource(arn, tags)])
    else
      Outcome(false, [])
  }

  /**
   * For s3, unless the read raises something other than a `ClientError`,
   * the bucket's tag set is written once with the existing tags overridden
   * by the new ones (just the new ones after a `ClientError`), and the call
   * succeeds exactly when that write returns.
   */
  lemma S3ReadMergeWrite(arn: string, tags: TagMap, aws: Aws)
    requires !aws.s3GetBucketTagging(BucketName(arn)).ReadRaised?
    ensures var bucket := BucketName(arn);
            var read := aws.s3GetBucketTagging(bucket);
            var written := if read.TagSetReply? then DictOf(read.tagSet) + tags else tags;
            ServiceApiCall(arn, tags, Some("s3"), aws)
              == Outcome(aws.s3PutBucketTagging(bucket, written).Done?,
                         [S3GetBucketTagging(bucket), S3PutBucketTagging(bucket, written)])
  {
    var read := aws.s3GetBucketTagging(BucketName(arn));
    if !read.TagSetReply? {
      assert map[] + tags == tags;
    }
  }

  /**
   * For s3, an exception other than a `ClientError` from the read reaches
   * the outer `except Exception`: nothing is written and the call fails.
   */
  lemma S3ReadRaised(arn: string, tags: TagMap, aws: Aws)
    requires aws.s3GetBucketTagging(BucketName(arn)).ReadRaised?
    ensures ServiceApiCall(arn, tags, Some("s3"), aws) == Outcome(false, [S3GetBucketTagging(BucketName(arn))])
  {
  }

  /** `tag_resource_with_service_api`. */
  method TagWithServiceApi(arn: string, tags: TagMap, service: Option<string>, aws: Aws)
    returns (ok: bool, requests: seq<Request>)
    ensures Outcome(ok, requests) == ServiceApiCall(arn, tags, service, aws)
  {
    if service == Some("appconfig") {
      var appconfigTags := tags;
      var reply := aws.appconfigTagResource(arn, appconfigTags);
      return reply.Done?, [AppConfigTagResource(arn, appconfigTags)];
    } else if service == Some("s3") {
      var bucketName := BucketName(arn);
      var existingTags: TagMap := map[];
      var response := aws.s3GetBucketTagging(bucketName);
      requests := [S3GetBucketTagging(bucketName)];
      match response {
        case TagSetReply(tagSet) =>
          for i := 0 to |tagSet|
            invariant existingTags == DictOf(tagSet[..i])
          {
            assert tagSet[..i + 1][..i] == tagSet[..i];
            existingTags := existingTags[tagSet[i].key := tagSet[i].value];
          }
          assert tagSet[..|tagSet|] == tagSet;
        case ReadClientError(_, _) =>
        case ReadRaised(_) =>
          return false, requests;
      }
      var combinedTags := existingTags;
      combinedTags := combinedTags + tags;
      var reply := aws.s3PutBucketTagging(bucketName, combinedTags);
      return reply.Done?, requests + [S3PutBucketTagging(bucketName, combinedTags)];
    } else if service == Some("route53resolver") {
      var tagList := tags;
      var reply := aws.route53resolverTagResource(arn, tagList);
      return reply.Done?, [Route53ResolverTagResource(arn, tagList)];
    } else {
      return false, [];
    }
  }
}
