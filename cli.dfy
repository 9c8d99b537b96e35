/**
 * The decisions of `main` in apply_tags.py: the ARN list is the comma-split
 * argument, each entry stripped and blank entries dropped; the run is
 * refused when no ARN is left, when any ARN is invalid, or when no tag
 * parses; otherwise the tags are applied and the exit status is 0 exactly
 * when the run succeeds.
 */
module Cli {
  import opened PyStrings
  import opened ArnParser
  import opened TagParser
  import opened AwsApi
  import opened Tagger

  /** `[arn.strip() for arn in pieces if arn.strip()]`. */
  function StrippedNonBlank(pieces: seq<string>): seq<string> {
    if pieces == [] then []
    else
      var init := StrippedNonBlank(pieces[..|pieces| - 1]);
      var arn := Strip(pieces[|pieces| - 1]);
      if arn != "" then init + [arn] else init
  }

  /** The ARN list of `main`, from the `--resource-arns` argument. */
  function ArnList(arg: string): seq<string> {
    StrippedNonBlank(Split(arg, ","))
  }

  /** Stripping keeps only characters of the string. */
  lemma StripKeeps(s: string, c: char)
    requires c in Strip(s)
    ensures c in s
  {
    StripIsSlice(s);
    var i :| 0 <= i < |Strip(s)| && Strip(s)[i] == c;
    assert s[StripStart(s) + i] == c;
  }

  lemma {:induction false} StrippedNonBlankEntries(pieces: seq<string>)
    requires forall i :: 0 <= i < |pieces| ==> ',' !in pieces[i]
    ensures forall arn :: arn in StrippedNonBlank(pieces) ==>
      arn != "" && !IsSpace(arn[0]) && !IsSpace(arn[|arn| - 1]) && ',' !in arn
  {
    if pieces != [] {
      var piece := pieces[|pieces| - 1];
      StrippedNonBlankEntries(pieces[..|pieces| - 1]);
      StripSpec(piece);
      if ',' in Strip(piece) {
        StripKeeps(piece, ',');
      }
    }
  }

  /**
   * Every entry of the ARN list is non-empty, starts and ends with a
   * non-whitespace character and holds no comma.
   */
  lemma ArnListEntries(arg: string)
    ensures forall arn :: arn in ArnList(arg) ==>
      arn != "" && !IsSpace(arn[0]) && !IsSpace(arn[|arn| - 1]) && ',' !in arn
  {
    var pieces := Split(arg, ",");
    SplitPartsFree(arg, ",");
    forall i | 0 <= i < |pieces|
      ensures ',' !in pieces[i]
    {
      OccursChar(',', pieces[i]);
    }
    StrippedNonBlankEntries(pieces);
  }

  lemma {:induction false} StrippedNonBlankAppend(a: seq<string>, b: seq<string>)
    ensures StrippedNonBlank(a + b) == StrippedNonBlank(a) + StrippedNonBlank(b)
    decreases |b|
  {
    if b == [] {
      assert a + b == a;
    } else {
      assert (a + b)[..|a + b| - 1] == a + b[..|b| - 1];
      assert (a + b)[|a + b| - 1] == b[|b| - 1];
      StrippedNonBlankAppend(a, b[..|b| - 1]);
      var arn := Strip(b[|b| - 1]);
      var left, right := StrippedNonBlank(a), StrippedNonBlank(b[..|b| - 1]);
      if arn != "" {
        assert StrippedNonBlank(a + b) == (left + right) + [arn] == left + (right + [arn]);
      }
    }
  }

  /** Arguments joined by a comma give the ARNs of the left part followed by those of the right part. */
  lemma ArnListAppend(a: string, b: string)
    ensures ArnList(a + "," + b) == ArnList(a) + ArnList(b)
  {
    SplitAppend(a, ',', b);
    StrippedNonBlankAppend(Split(a, ","), Split(b, ","));
  }

  /** A comma-free argument gives its stripped self, or nothing when it is blank. */
  lemma ArnListSingle(arg: string)
    requires ',' !in arg
    ensures ArnList(arg) == if AllSpace(arg) then [] else [Strip(arg)]
  {
    OccursChar(',', arg);
    SplitNoSeparator(arg, ",");
    StripSpec(arg);
    assert [arg][..0] == [];
    assert StrippedNonBlank([arg]) == if Strip(arg) != "" then [] + [Strip(arg)] else [];
  }

  /** `[arn for arn in resource_arns if not validate_arn(arn)]`. */
  function InvalidArns(arns: seq<string>): (invalid: seq<string>)
    ensures forall a :: a in invalid <==> a in arns && !ValidArn(a)
  {
    if arns == [] then []
    else
      var init := InvalidArns(arns[..|arns| - 1]);
      var arn := arns[|arns| - 1];
      assert arns == arns[..|arns| - 1] + [arn];
      if ValidArn(arn) then init else init + [arn]
  }

  /** No ARN is invalid exactly when every ARN is valid. */
  lemma InvalidArnsEmpty(arns: seq<string>)
    ensures InvalidArns(arns) == [] <==> forall a :: a in arns ==> ValidArn(a)
  {
    if InvalidArns(arns) != [] {
      assert InvalidArns(arns)[0] in InvalidArns(arns);
    }
  }

  /** Why `main` exits with status 1 before tagging anything. */
  datatype Rejection = NoArns | InvalidArnsFound(invalid: seq<string>) | NoTags

  datatype Decision = Reject(reason: Rejection) | Proceed(arns: seq<string>, tags: TagMap)

  /** The checks of `main`, in their order: ARNs present, all ARNs valid, some tag parsed. */
  function Decide(arnsArg: string, tagsArg: string): (d: Decision)
    ensures d == Reject(NoArns) <==> ArnList(arnsArg) == []
    ensures d.Reject? && d.reason.InvalidArnsFound? <==>
      ArnList(arnsArg) != [] && exists a :: a in ArnList(arnsArg) && !ValidArn(a)
    ensures d.Proceed? <==>
      ArnList(arnsArg) != [] && (forall a :: a in ArnList(arnsArg) ==> ValidArn(a)) && ParsedTags(tagsArg) != map[]
    ensures d.Proceed? ==> d.arns == ArnList(arnsArg) && d.tags == ParsedTags(tagsArg)
  {
    var resourceArns := ArnList(arnsArg);
    if resourceArns == [] then Reject(NoArns)
    else
      var invalid := InvalidArns(resourceArns);
      InvalidArnsEmpty(resourceArns);
      if invalid != [] then Reject(InvalidArnsFound(invalid))
      else
        var tags := ParsedTags(tagsArg);
        if tags == map[] then Reject(NoTags) else Proceed(resourceArns, tags)
  }

  /**
   * `main` after argument parsing: the exit status and the calls made. A
   * rejected input makes no call and exits with 1; otherwise the status is
   * 0 exactly when `apply_tags_to_resources` returns True.
   */
  method Execute(arnsArg: string, tagsArg: string, aws: Aws) returns (exitCode: int, requests: seq<Request>)
    ensures exitCode == 0 || exitCode == 1
    ensures Decide(arnsArg, tagsArg).Reject? ==> exitCode == 1 && requests == []
    ensures Decide(arnsArg, tagsArg).Proceed? ==>
      var run := TagRun(ArnList(arnsArg), ParsedTags(tagsArg), aws);
      requests == run.requests && (exitCode == 0 <==> Succeeded(run))
  {
    var resourceArns := ArnList(arnsArg);
    if resourceArns == [] {
      return 1, [];
    }
    var invalidArns := InvalidArns(resourceArns);
    if invalidArns != [] {
      return 1, [];
    }
    var tags := ParseTags(tagsArg);
    if tags == map[] {
      return 1, [];
    }
    var success, run := ApplyTagsToResources(resourceArns, tags, aws);
    exitCode := if success then 0 else 1;
    requests := run.requests;
  }
}
