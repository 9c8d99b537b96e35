/**
 * The AWS calls apply_tags.py makes, as deterministic oracles. Each remote
 * operation is a field of `Aws` that maps its arguments to the reply the
 * service gives; what a caller sends is recorded as a `Request`, so that
 * which calls are made, with which arguments and in which order, can be
 * stated about a run.
 */
module AwsApi {
  import opened TagParser

  /** One entry of a `FailedResourcesMap`: `{'ErrorCode': …, 'ErrorMessage': …}`. */
  datatype Failure = Failure(errorCode: string, errorMessage: string)

  /** Failures keyed by ARN. */
  type FailureMap = map<string, Failure>

  /** A call whose only outcome is to return normally or to raise. */
  datatype CallReply = Done | Raised(message: string)

  /**
   * `get_bucket_tagging`: the `TagSet` of the response (empty when the
   * response has none), a `ClientError` with its code, or another exception.
   */
  datatype TagRead =
    | TagSetReply(tagSet: seq<Tag>)
    | ReadClientError(code: string, message: string)
    | ReadRaised(message: string)

  /**
   * `tag_resources` of the Resource Groups Tagging API: the response's
   * `FailedResourcesMap` (empty when the response has none), a `ClientError`
   * with its code and message, or another exception.
   */
  datatype BulkReply =
    | Returned(failedResources: FailureMap)
    | BulkClientError(code: string, message: string)
    | BulkRaised(message: string)

  /** A call as sent: the operation and its arguments. */
  datatype Request =
    | TagResources(arns: seq<string>, tags: TagMap)
    | AppConfigTagResource(arn: string, tags: TagMap)
    | S3GetBucketTagging(bucket: string)
    | S3PutBucketTagging(bucket: string, tagSet: TagMap)
    | Route53ResolverTagResource(arn: string, tags: TagMap)

  /** The replies of the services, as functions of the arguments of each call. */
  datatype Aws = Aws(
    tagResources: (seq<string>, TagMap) -> BulkReply,
    appconfigTagResource: (string, TagMap) -> CallReply,
    s3GetBucketTagging: string -> TagRead,
    s3PutBucketTagging: (string, TagMap) -> CallReply,
    route53resolverTagResource: (string, TagMap) -> CallReply)
}
