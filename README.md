# aws-resource-tagger, modelled in Dafny

`apply_tags.py` is a command-line tool that adds tags to existing AWS
resources, each named by its ARN. Here is what it does:

- It reads a comma-separated list of ARNs and a `key=value,...` tag string.
- It rejects the input when no ARN is left after trimming, when an ARN does
  not start with `arn:aws:`, or when no tag parses.
- It routes each ARN by its service.
  - s3, appconfig and route53resolver resources are tagged one by one
    through the service's own API.
  - For s3, the bucket's existing tags are read first and merged with the
    new ones, because `put_bucket_tagging` replaces the whole tag set.
  - Every other ARN goes to the Resource Groups Tagging API
    (`tag_resources`), in consecutive batches of at most 20.
- It counts successes and keeps a failure map keyed by ARN.
- The run succeeds, and the process exits with status 0, exactly when no
  exception ended the run and that map ends up empty.

The model replaces every AWS call with a deterministic oracle, a field of the
datatype `AwsApi.Aws`, and records each call it makes as an `AwsApi.Request`.
With that, which calls a run makes, with which arguments and in which order,
can be stated and proved.

Modules, one file each:

| file | module | what it holds |
|---|---|---|
| `py_strings.dfy` | `PyStrings` | `str.split`, `split(c, 1)`, `strip`, `startswith` and `in`, with Python's semantics |
| `arn_parser.dfy` | `ArnParser` | `validate_arn`, `get_service_from_arn`, `get_resource_type_from_arn` |
| `tag_parser.dfy` | `TagParser` | `parse_tags`, and the dict-building loop it shares with the S3 path |
| `aws_api.dfy` | `AwsApi` | the oracle interface and the request log |
| `dispatch.dfy` | `Dispatch` | routing by service, and batching by 20 |
| `service_adapter.dfy` | `ServiceAdapter` | `tag_resource_with_service_api` |
| `tagger.dfy` | `Tagger` | `apply_tags_to_resources`: the two phases, the tallies, the result |
| `cli.dfy` | `Cli` | the decisions and the exit status of `main` |

The loops of the source are methods with `while`/`for` loops:

- the `parse_tags` loop;
- the existing-tag loop of the S3 path;
- the routing loop;
- the per-ARN and per-batch loops of `apply_tags_to_resources`;
- the loop that marks every ARN of a failed batch.

Each of these methods is proved equal to a function, and the properties are
proved about those functions.

On a missing field the code returns `None`; `ArnParser.ServiceOf` and
`ArnParser.ResourceTypeOf` return `Option.None`.

## Model

| member | source | states |
|---|---|---|
| PyStrings.TrimLeftSpec | apply_tags.py:25 | `lstrip` leaves a suffix of the string; everything it removed is whitespace, and what it keeps does not start with whitespace |
| PyStrings.TrimRightSpec | apply_tags.py:25 | `rstrip` leaves a prefix; everything it removed is whitespace, and what it keeps does not end with whitespace |
| PyStrings.StripSpec | apply_tags.py:256 | `strip()` neither starts nor ends with whitespace, and it is empty exactly when the string is all whitespace (the `if arn.strip()` filter) |
| PyStrings.StripIsSlice | apply_tags.py:256 | the string is whitespace, then its `strip()`, then whitespace |
| PyStrings.StartsWith | apply_tags.py:31 | `s.startswith(p)` holds exactly when `p` is no longer than `s` and equals the prefix of `s` of the same length |
| PyStrings.SplitOnce | apply_tags.py:24 | `split('=', 1)` gives a first half free of '=' and a second half, and the string is the first half, then '=', then the second half |
| PyStrings.SplitOnceOf | apply_tags.py:24 | the cut is at the first '=': a '='-free text, then '=', then anything, splits back into exactly that text and that rest |
| PyStrings.OccursChar | apply_tags.py:23 | a one-character separator occurs in a string exactly when the character is in it |
| PyStrings.JoinLast | apply_tags.py:68 | the last part of a join comes after its last separator |
| PyStrings.SplitJoin | apply_tags.py:22 | splitting and then joining with the same separator gives back the string: `split` loses no character |
| PyStrings.SplitPartsFree | apply_tags.py:22 | no part of `s.split(sep)` contains `sep` |
| PyStrings.SplitNoSeparator | apply_tags.py:22 | a string without the separator splits into itself alone |
| PyStrings.SplitWithSeparator | apply_tags.py:68 | a string that contains the separator splits into at least two parts |
| PyStrings.SplitAppend | apply_tags.py:22 | splitting `a + c + b` at `c` gives the parts of `a` followed by the parts of `b` |
| PyStrings.SplitFirstField | apply_tags.py:36 | a leading field free of the separator is the first part |
| PyStrings.SplitOfJoin | apply_tags.py:36 | separator-free fields joined by the separator split back into exactly those fields: split inverts join |
| PyStrings.SplitCount | apply_tags.py:36-38 | `s.split(c)` has one more part than `s` has occurrences of `c` |
| ArnParser.ValidArn | apply_tags.py:28-31 | an ARN is valid exactly when it has at least 8 characters and they are `arn:aws:` |
| ArnParser.ServiceOfNone | apply_tags.py:33-38 | there is no service (the `IndexError` case) exactly when the ARN has fewer than two colons |
| ArnParser.ServiceHasNoColon | apply_tags.py:36 | the service is a whole field: it holds no colon |
| ArnParser.ServiceOfFields | apply_tags.py:33-38 | the ARN made of colon-free fields f0:f1:f2:... has service f2 |
| ArnParser.ServiceOfArn | apply_tags.py:33-38 | `arn:aws:` followed by a colon-free name, then the end or a colon, has that name as its service |
| ArnParser.S3ServiceExample | apply_tags.py:36 | `arn:aws:s3:::my-bucket` has service `s3` |
| ArnParser.ShortArnExample | apply_tags.py:33-51 | `arn` has no service and no resource type |
| ArnParser.ResourceTypeOfNone | apply_tags.py:40-51 | there is no resource type exactly when the ARN has fewer than five colons, which means fewer than six fields |
| ArnParser.ResourceTypeOfFields | apply_tags.py:43-48 | with colon-free fields, the resource type is the sixth field up to its first '/', or all of the field when it has no '/' |
| ArnParser.InstanceResourceTypeExample | apply_tags.py:43-47 | every `arn:aws:ec2:<region>:<account>:instance/<id>` has resource type `instance` |
| ArnParser.ValidArnExamples | apply_tags.py:31 | `arn:aws:s3:::bucket` is valid and `not-an-arn` is not |
| TagParser.DictOfAppend | apply_tags.py:22-25 | filling a dict from two lists in turn gives the first list's dict overridden by the second's |
| TagParser.DictOfKeys | apply_tags.py:22-25 | the dict's keys are exactly the keys of the pairs |
| TagParser.DictOfLastWins | apply_tags.py:22-25 | a key's value is that of its last pair |
| TagParser.ParseTags | apply_tags.py:16-26 | the `parse_tags` loop: an empty string gives `{}`; otherwise each comma piece with an '=' is cut at its first '=', both halves are stripped and assigned in order |
| TagParser.PairsOfAppend | apply_tags.py:22-25 | the pairs of two lists of pieces are those of the first list followed by those of the second |
| TagParser.ParsedTagsAppend | apply_tags.py:16-26 | `a,b` parses to the tags of `a` overridden by those of `b` |
| TagParser.ParsedTagsOfPiece | apply_tags.py:22 | a non-empty comma-free string is one piece |
| TagParser.ParsedTagsNoPair | apply_tags.py:18-23 | a piece without '=' is dropped, and the empty string gives the empty map |
| TagParser.PairOfKeyValue | apply_tags.py:23-25 | `key=value` with an '='-free key gives the pair (stripped key, stripped value), even when the value holds '=' signs |
| TagParser.DictOfOne | apply_tags.py:25 | one piece that parses to a pair gives a one-entry dict |
| TagParser.ParsedTagsPair | apply_tags.py:16-26 | `key=value` parses to the single tag (stripped key, stripped value), with every '=' after the first kept in the value |
| TagParser.ParsedTagsLaterKeyWins | apply_tags.py:22-25 | `k=v1,k=v2` parses to `{k: v2}`: a later duplicate key overwrites the earlier one |
| TagParser.PrependPair | apply_tags.py:22-25 | a `key=value` piece in front of more tags adds the stripped pair, overridden by any later tag with the same key |
| TagParser.DropPiece | apply_tags.py:22-23 | a piece without '=' in front of more tags changes nothing |
| TagParser.MixedTagsExample | apply_tags.py:16-26 | `a=1,b=2,bad,c= 3 ` parses to `{a: 1, b: 2, c: 3}` |
| TagParser.OverrideOne | apply_tags.py:25 | assigning a key twice keeps the second value |
| Dispatch.RoutePartition | apply_tags.py:125-136 | the two routed lists together hold each input ARN exactly as often as the input does |
| Dispatch.RouteSides | apply_tags.py:129-136 | an ARN is in the service-specific list exactly when its service is s3, appconfig or route53resolver, and in the bulk list exactly when it is not |
| Dispatch.RouteAppend | apply_tags.py:131-136 | routing keeps the input's relative order in both lists |
| Dispatch.RouteNoService | apply_tags.py:132-136 | an ARN with no service (None) goes to the bulk list |
| Dispatch.ConcatLast | apply_tags.py:165 | laying batches end to end puts the last batch last |
| Dispatch.BatchSizes | apply_tags.py:165 | there are ceil(n/20) batches; each holds 1 to 20 ARNs, and all but the last hold exactly 20 |
| Dispatch.BatchesCons | apply_tags.py:165 | the first batch is the first 20 ARNs, and the rest are the batches of what follows |
| Dispatch.BatchesConcat | apply_tags.py:165 | the batches laid end to end give back the bulk list exactly |
| Dispatch.FortyFiveArnsExample | apply_tags.py:165 | 45 ARNs make batches of 20, 20 and 5 |
| ServiceAdapter.BucketNameIsLastField | apply_tags.py:68 | the bucket name is a suffix of the ARN with no `:::` in it; it follows a `:::` when the ARN has one, and it is the whole ARN otherwise |
| ServiceAdapter.MergeTags | apply_tags.py:84-85 | the merged keys are the union, the new values win, and the other existing values stay |
| ServiceAdapter.ServiceApiCall | apply_tags.py:53-102 | success only for s3, appconfig or route53resolver; any other service returns False without a call; a known service makes at least one call |
| ServiceAdapter.S3ReadMergeWrite | apply_tags.py:66-91 | for s3, when the read returns or raises a `ClientError`, the bucket's tag set is written once with the existing tags overridden by the new ones (only the new ones after a `ClientError`, "NoSuchTagSet" or any other), and the call succeeds exactly when that write returns |
| ServiceAdapter.S3ReadRaised | apply_tags.py:66-102 | for s3, when the read raises anything other than a `ClientError`, the exception is caught at lines 100-102: nothing is written and the call returns False after the read alone |
| ServiceAdapter.TagWithServiceApi | apply_tags.py:53-102 | the method (existing-tag loop, copy and update) makes exactly the calls, and returns exactly the result, of `ServiceApiCall` |
| Tagger.DedicatedStep | apply_tags.py:149-161 | a successful dedicated call adds 1 to the success count; a failed one records `ServiceSpecificAPIError` and "Error usando API específica de <service>" for that ARN and leaves the other entries alone |
| Tagger.DedicatedPhase | apply_tags.py:149-161 | the dedicated phase never ends the run early, since its exceptions are caught |
| Tagger.MarkFailed | apply_tags.py:205-209 | after a whole-batch error, every ARN of the batch maps to that error, and the other entries stay |
| Tagger.BatchStep | apply_tags.py:174-209 | a batch that returns adds its size minus the size of its failure map and merges the map in; a `ClientError` adds nothing and marks the whole batch; any other exception ends the run, after which nothing changes |
| Tagger.BulkPhaseAborted | apply_tags.py:242-244 | once an exception has ended the run, later batches make no call and change nothing |
| Tagger.BulkPhaseAppend | apply_tags.py:171 | processing two lists of batches in turn equals processing their concatenation |
| Tagger.SplitByApi | apply_tags.py:125-136 | the routing loop builds exactly the lists of `Route` |
| Tagger.TagOneByOne | apply_tags.py:148-161 | the loop over the service-specific ARNs yields exactly the run of `DedicatedPhase` |
| Tagger.MarkFailedNext | apply_tags.py:205-209 | marking one more ARN of the batch is one more map assignment |
| Tagger.MarkBatchFailed | apply_tags.py:205-209 | the marking loop builds exactly `MarkFailed` |
| Tagger.TagOneBatch | apply_tags.py:174-209 | one pass of the batch loop body leaves the tallies exactly as `BatchStep` says: one `tag_resources` call logged, then the return, `ClientError` or abort case |
| Tagger.TagInBatches | apply_tags.py:164-209 | the batch loop yields exactly the run of `BulkPhase`, and stops at an exception other than `ClientError` |
| Tagger.ApplyTagsToResources | apply_tags.py:104-244 | `apply_tags_to_resources` performs the run `TagRun`, and returns True exactly when that run was not ended by an exception and left an empty failure map |
| Tagger.DedicatedPhaseClean | apply_tags.py:149-161 | the dedicated phase leaves no failure exactly when every one of its calls succeeds |
| Tagger.BulkPhaseClean | apply_tags.py:171-209 | non-empty batches leave a successful run successful exactly when every batch call returns an empty failure map |
| Tagger.TagRunSucceeds | apply_tags.py:229 | the result is True exactly when every dedicated call succeeds and every bulk batch returns an empty failure map |
| Tagger.BulkPhaseRequests | apply_tags.py:171-179 | a bulk phase that runs to the end calls `tag_resources` once per batch, in order, with the whole tag map |
| Tagger.TagRunRequests | apply_tags.py:148-179 | the calls of a completed run are the dedicated calls, then one `tag_resources` per batch, and the batches hold every bulk ARN once, in order |
| Tagger.DistinctParts | apply_tags.py:131-136 | the two parts of a list without repeats have no repeats and share no ARN |
| Tagger.DistinctSize | apply_tags.py:215 | a list without repeats has as many distinct ARNs as entries |
| Tagger.DedicatedAccounting | apply_tags.py:149-161 | with distinct ARNs, the dedicated phase counts each ARN once, as a success or as a failure |
| Tagger.BatchAccounting | apply_tags.py:174-209 | a batch of new, distinct ARNs whose failure map stays within the batch counts each of its ARNs once |
| Tagger.DisjointMergeSize | apply_tags.py:186 | merging failure maps with disjoint keys adds their sizes |
| Tagger.MarkFailedSize | apply_tags.py:205-209 | marking a batch none of whose ARNs had failed adds the batch's ARNs to the failure count |
| Tagger.BulkAccounting | apply_tags.py:171-209 | under those conditions, the bulk phase counts each ARN of its batches once |
| Tagger.RouteKeepsArns | apply_tags.py:131-136 | routing neither adds nor loses ARNs |
| Tagger.RouteDistinct | apply_tags.py:131-136 | routing ARNs without repeats gives lists without repeats that together hold the input's ARNs |
| Tagger.PhasesAccounting | apply_tags.py:145-209 | both phases together count each ARN once |
| Tagger.RoutedRun | apply_tags.py:125-209 | the run works through the two routed lists, which repeat no ARN and together hold the input's ARNs |
| Tagger.TagRunAccounting | apply_tags.py:145-229 | with distinct ARNs, and failure maps that name only ARNs of their batch, a run not ended by an exception has successes plus failures equal to the number of ARNs, and only given ARNs fail |
| Cli.StrippedNonBlankEntries | apply_tags.py:256 | the kept entries are non-empty, start and end with a non-whitespace character, and hold no comma |
| Cli.ArnListEntries | apply_tags.py:256 | every entry of the ARN list is non-empty, stripped and comma-free |
| Cli.StrippedNonBlankAppend | apply_tags.py:256 | the comprehension maps each part of a list on its own, in order |
| Cli.ArnListAppend | apply_tags.py:256 | `a,b` gives the ARNs of `a` followed by those of `b` |
| Cli.ArnListSingle | apply_tags.py:256 | a comma-free argument gives its stripped self, or nothing when it is all whitespace |
| Cli.StripKeeps | apply_tags.py:256 | stripping keeps only characters of the string |
| Cli.InvalidArns | apply_tags.py:263 | an ARN is listed as invalid exactly when it is in the list and fails `validate_arn` |
| Cli.InvalidArnsEmpty | apply_tags.py:263-264 | no ARN is invalid exactly when every ARN is valid |
| Cli.Decide | apply_tags.py:256-275 | `main` rejects for no ARN exactly when the list is empty, and for invalid ARNs exactly when some ARN is invalid; otherwise it proceeds exactly when some tag parses, with that list and those tags |
| Cli.Execute | apply_tags.py:246-286 | a rejected input makes no call and exits 1; otherwise the calls are those of the run, and the exit status is 0 exactly when the run succeeds |

## Left out

- The boto3 clients and the network are not modelled. `tag_resources`, `tag_resource`, `get_bucket_tagging` and `put_bucket_tagging` are oracle fields of `AwsApi.Aws`. Client construction, including the bulk client at line 109, which sits outside the `try`, is not modelled.
- The oracles are deterministic: the same call with the same arguments gets the same reply. A service whose answer changes between two identical calls is outside the model.
- Logging, the logging set-up (lines 9-14) and every message text are not modelled, except the failure message stored in the failure map.
- `argparse` and `sys.exit` are reduced to the two string arguments and an exit status of 0 or 1. Missing arguments, which argparse rejects, are not modelled.
- Tag lists and the order of dict entries are not modelled. The tag list sent to route53resolver and S3 (lines 88 and 94) is the map it is built from.
- `Tagger.TagRun` and `ServiceAdapter.ServiceApiCall` merge exceptions. Every exception other than a batch's or the bucket read's `ClientError` is one `BulkRaised`/`ReadRaised`/`Raised` case. In the service-specific path it gives False (lines 100-102). In the bulk path it ends the run, so the top-level handlers at lines 231-244 are modelled only as "the run ends and returns False".
- `ServiceAdapter.ExistingTags` assumes well-formed tag entries. A tag entry without `Key` or `Value` (a `KeyError` at line 75) is not modelled: a tag set entry is always a key and a value.
- `Tagger.TagRunAccounting` holds only under two conditions. The claim that every ARN is counted exactly once as a success or a failure is proved only when no ARN is given twice and every failure map names only ARNs of its own batch. Without them, duplicates collapse in the failure map and foreign keys skew the count, as the code is written.
- `ServiceAdapter.BucketNameIsLastField` does not pin down where the name starts when separators overlap. It states that the name follows the `:::` at which Python's left-to-right split last cuts, not the rightmost `:::`; they differ for runs of four or more colons.
- Integers are unbounded, as Python's are. No integer width is modelled.
