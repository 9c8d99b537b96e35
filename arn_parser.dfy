/**
 * The identifier parser of apply_tags.py: the shallow ARN check and the
 * extraction of the service and of the resource type from an ARN, by
 * splitting on ':' and '/'.
 */
module ArnParser {
  import opened Wrappers
  import opened PyStrings

  const ARN_PREFIX: string := "arn:aws:"

  /** `validate_arn`: the ARN starts with "arn:aws:"; nothing else is checked. */
  function ValidArn(arn: string): (valid: bool)
    ensures valid <==> |arn| >= 8 && arn[..8] == "arn:aws:"
  {
    StartsWith(arn, ARN_PREFIX)
  }

  /** `get_service_from_arn`: the third ':'-separated field, None when there is none. */
  function ServiceOf(arn: string): Option<string> {
    var fields := Split(arn, ":");
    if |fields| >= 3 then Some(fields[2]) else None
  }

  /**
   * `get_resource_type_from_arn`: the sixth ':'-separated field up to its
   * first '/' (all of it when it has no '/'), None when there is no sixth field.
   */
  function ResourceTypeOf(arn: string): Option<string> {
    var fields := Split(arn, ":");
    if |fields| >= 6 then
      var resource := fields[5];
      if '/' in resource then Some(Split(resource, "/")[0]) else Some(resource)
    else None
  }

  /** An ARN has a service field exactly when it holds at least two colons. */
  lemma ServiceOfNone(arn: string)
    ensures ServiceOf(arn) == None <==> multiset(arn)[':'] < 2
  {
    SplitCount(arn, ':');
  }

  /** The service is a whole field: it holds no colon. */
  lemma ServiceHasNoColon(arn: string)
    requires ServiceOf(arn).Some?
    ensures ':' !in ServiceOf(arn).value
  {
    SplitPartsFree(arn, ":");
    OccursChar(':', Split(arn, ":")[2]);
  }

  /** The ARN made of colon-free fields f0:f1:f2:... has service f2. */
  lemma ServiceOfFields(fields: seq<string>)
    requires |fields| >= 3
    requires forall i :: 0 <= i < |fields| ==> ':' !in fields[i]
    ensures ServiceOf(Join(fields, ":")) == Some(fields[2])
  {
    SplitOfJoin(fields, ':');
  }

  /** An ARN has a resource type exactly when it holds at least five colons. */
  lemma ResourceTypeOfNone(arn: string)
    ensures ResourceTypeOf(arn) == None <==> multiset(arn)[':'] < 5
  {
    SplitCount(arn, ':');
  }

  /**
   * The ARN made of colon-free fields f0:...:f5:... has as resource type the
   * text `t` of f5 before its first '/', or all of f5 when it has no '/'.
   */
  lemma ResourceTypeOfFields(fields: seq<string>, t: string)
    requires |fields| >= 6
    requires forall i :: 0 <= i < |fields| ==> ':' !in fields[i]
    requires '/' !in t
    requires fields[5] == t || (|fields[5]| > |t| && fields[5][..|t| + 1] == t + "/")
    ensures ResourceTypeOf(Join(fields, ":")) == Some(t)
  {
    SplitOfJoin(fields, ':');
    var resource := fields[5];
    if resource != t {
      var rest := resource[|t| + 1..];
      assert resource == t + ['/'] + rest;
      assert '/' in resource;
      SplitAppend(t, '/', rest);
      OccursChar('/', t);
      SplitNoSeparator(t, "/");
    }
  }

  lemma ValidArnExamples()
    ensures ValidArn("arn:aws:s3:::bucket")
    ensures !ValidArn("not-an-arn")
  {
  }

  /** The field after "arn:aws:" and up to the next colon (or the end) is the service. */
  lemma ServiceOfArn(service: string, rest: string)
    requires ':' !in service
    requires rest == "" || rest[0] == ':'
    ensures ServiceOf(ARN_PREFIX + service + rest) == Some(service)
  {
    var tail := service + rest;
    assert ARN_PREFIX + service + rest == "arn" + ":" + ("aws" + ":" + tail);
    SplitFirstField("arn", ':', "aws" + ":" + tail);
    SplitFirstField("aws", ':', tail);
    if rest == "" {
      assert tail == service;
      OccursChar(':', service);
      SplitNoSeparator(service, ":");
    } else {
      assert tail == service + [':'] + rest[1..];
      SplitFirstField(service, ':', rest[1..]);
    }
  }

  /** `"arn:aws:s3:::my-bucket"` has service "s3". */
  lemma S3ServiceExample(arn: string)
    requires arn == "arn:aws:s3:::my-bucket"
    ensures ServiceOf(arn) == Some("s3")
  {
    assert arn == ARN_PREFIX + "s3" + ":::my-bucket";
    ServiceOfArn("s3", ":::my-bucket");
  }

  /** An EC2 instance ARN, whatever its region, account and id, has resource type "instance". */
  lemma InstanceResourceTypeExample(region: string, account: string, id: string)
    requires ':' !in region && ':' !in account && ':' !in id
    ensures ResourceTypeOf("arn:aws:ec2:" + region + ":" + account + ":instance/" + id) == Some("instance")
  {
    var fields := ["arn", "aws", "ec2", region, account, "instance/" + id];
    assert Join(fields[4..], ":") == account + ":" + ("instance/" + id);
    assert Join(fields[3..], ":") == region + ":" + (account + ":" + ("instance/" + id));
    assert Join(fields[2..], ":") == "ec2" + ":" + (region + ":" + (account + ":" + ("instance/" + id)));
    assert Join(fields[1..], ":") == "aws" + ":" + ("ec2" + ":" + (region + ":" + (account + ":" + ("instance/" + id))));
    assert Join(fields, ":") == "arn" + ":" + ("aws" + ":" + ("ec2" + ":" + (region + ":" + (account + ":" + ("instance/" + id)))));
    assert Join(fields, ":") == "arn:aws:ec2:" + region + ":" + account + ":instance/" + id;
    assert ("instance/" + id)[..9] == "instance/";
    ResourceTypeOfFields(fields, "instance");
  }

  /** "arn" has no service and no resource type. */
  lemma ShortArnExample(arn: string)
    requires arn == "arn"
    ensures ServiceOf(arn) == None && ResourceTypeOf(arn) == None
  {
    ServiceOfNone(arn);
    ResourceTypeOfNone(arn);
  }
}
