/**
 * `apply_tags_to_resources` of apply_tags.py: routes the ARNs, tags the
 * service-specific ones one by one, tags the others in batches through the
 * Resource Groups Tagging API, and tallies successes and failures. The run
 * succeeds exactly when no exception ended it and no ARN is left in the
 * failure map.
 */
module Tagger {
  import opened Wrappers
  import opened ArnParser
  import opened TagParser
  import opened AwsApi
  import opened Dispatch
  import opened ServiceAdapter

  const SERVICE_API_ERROR: string := "ServiceSpecificAPIError"

  /** How an f-string prints the service: its name, or "None" when there is none. */
  function ServiceText(service: Option<string>): string {
    match service
    case Some(name) => name
    case None => "None"
  }

  /** The failure recorded for an ARN whose dedicated call failed. */
  function ServiceApiFailure(service: Option<string>): Failure {
    Failure(SERVICE_API_ERROR, "Error usando API específica de " + ServiceText(service))
  }

  /**
   * The state of a run: `total_success_count`, `total_failed`, the calls
   * made so far, and whether an exception other than a batch's
   * `ClientError` has ended the run (the function then returns False).
   */
  datatype Run = Run(successCount: int, failed: FailureMap, requests: seq<Request>, aborted: bool)

  const START: Run := Run(0, map[], [], false)

  /** The run's result: True exactly when it ran to the end with no failed ARN. */
  predicate Succeeded(run: Run) {
    !run.aborted && run.failed == map[]
  }

  /** One service-specific ARN: a success adds one, a failure records `ServiceSpecificAPIError`. */
  function DedicatedStep(run: Run, arn: string, tags: TagMap, aws: Aws): (next: Run)
    ensures next.aborted == run.aborted
    ensures next.requests == run.requests + ServiceApiCall(arn, tags, ServiceOf(arn), aws).requests
    ensures ServiceApiCall(arn, tags, ServiceOf(arn), aws).ok ==>
      next.successCount == run.successCount + 1 && next.failed == run.failed
    ensures !ServiceApiCall(arn, tags, ServiceOf(arn), aws).ok ==>
      next.successCount == run.successCount
      && next.failed.Keys == run.failed.Keys + {arn}
      && next.failed[arn] == Failure("ServiceSpecificAPIError", "Error usando API específica de " + ServiceText(ServiceOf(arn)))
      && forall a :: a in run.failed && a != arn ==> next.failed[a] == run.failed[a]
  {
    var service := ServiceOf(arn);
    var out := ServiceApiCall(arn, tags, service, aws);
    if out.ok then
      run.(successCount := run.successCount + 1, requests := run.requests + out.requests)
    else
      run.(failed := run.failed[arn := ServiceApiFailure(service)], requests := run.requests + out.requests)
  }

  /** The loop over the service-specific ARNs, from the start of the run. */
  function DedicatedPhase(arns: seq<string>, tags: TagMap, aws: Aws): (run: Run)
    ensures !run.aborted
  {
    if arns == [] then START
    else DedicatedStep(DedicatedPhase(arns[..|arns| - 1], tags, aws), arns[|arns| - 1], tags, aws)
  }

  /** Every ARN of a batch mapped to the failure of the whole call. */
  function MarkFailed(failed: FailureMap, batch: seq<string>, failure: Failure): (marked: FailureMap)
    ensures marked.Keys == failed.Keys + set a | a in batch
    ensures forall a :: a in batch ==> marked[a] == failure
    ensures forall a :: a in failed && a !in batch ==> marked[a] == failed[a]
  {
    failed + map a | a in batch :: failure
  }

  /**
   * One bulk batch. A normal return adds the batch size less the size of
   * its failure map and merges that map in; a `ClientError` adds nothing and
   * fails every ARN of the batch with the error's code and message; any
   * other exception ends the run. Once ended, nothing more happens.
   */
  function BatchStep(run: Run, batch: seq<string>, tags: TagMap, aws: Aws): (next: Run)
    ensures run.aborted ==> next == run
    ensures !run.aborted ==> next.requests == run.requests + [TagResources(batch, tags)]
    ensures !run.aborted && aws.tagResources(batch, tags).Returned? ==>
      var failedHere := aws.tagResources(batch, tags).failedResources;
      !next.aborted
      && next.successCount == run.successCount + |batch| - |failedHere|
      && next.failed.Keys == run.failed.Keys + failedHere.Keys
      && (forall a :: a in failedHere ==> next.failed[a] == failedHere[a])
      && (forall a :: a in run.failed && a !in failedHere ==> next.failed[a] == run.failed[a])
    ensures !run.aborted && aws.tagResources(batch, tags).BulkClientError? ==>
      var reply := aws.tagResources(batch, tags);
      !next.aborted
      && next.successCount == run.successCount
      && next.failed == MarkFailed(run.failed, batch, Failure(reply.code, reply.message))
    ensures !run.aborted && aws.tagResources(batch, tags).BulkRaised? ==> next.aborted
  {
    if run.aborted then run
    else
      var requests := run.requests + [TagResources(batch, tags)];
      match aws.tagResources(batch, tags)
      case Returned(failedHere) =>
        Run(run.successCount + |batch| - |failedHere|, run.failed + failedHere, requests, false)
      case BulkClientError(code, message) =>
        Run(run.successCount, MarkFailed(run.failed, batch, Failure(code, message)), requests, false)
      case BulkRaised(_) =>
        run.(requests := requests, aborted := true)
  }

  /** The loop over the batches, from the run the dedicated phase left. */
  function BulkPhase(batches: seq<seq<string>>, run: Run, tags: TagMap, aws: Aws): Run {
    if batches == [] then run
    else BatchStep(BulkPhase(batches[..|batches| - 1], run, tags, aws), batches[|batches| - 1], tags, aws)
  }

  /** The whole run of `apply_tags_to_resources`. */
  function TagRun(arns: seq<string>, tags: TagMap, aws: Aws): Run {
    var routed := Route(arns);
    BulkPhase(Batches(routed.1), DedicatedPhase(routed.0, tags, aws), tags, aws)
  }

  /** Batches after the run has ended change nothing: no further call is made. */
  lemma {:induction false} BulkPhaseAborted(batches: seq<seq<string>>, run: Run, tags: TagMap, aws: Aws)
    requires run.aborted
    ensures BulkPhase(batches, run, tags, aws) == run
  {
    if batches != [] {
      BulkPhaseAborted(batches[..|batches| - 1], run, tags, aws);
    }
  }

  /** Processing two lists of batches in turn is processing their concatenation. */
  lemma {:induction false} BulkPhaseAppend(a: seq<seq<string>>, b: seq<seq<string>>, run: Run, tags: TagMap, aws: Aws)
    ensures BulkPhase(a + b, run, tags, aws) == BulkPhase(b, BulkPhase(a, run, tags, aws), tags, aws)
    decreases |b|
  {
    if b == [] {
      assert a + b == a;
    } else {
      assert (a + b)[..|a + b| - 1] == a + b[..|b| - 1];
      BulkPhaseAppend(a, b[..|b| - 1], run, tags, aws);
    }
  }

  /** The routing loop of `apply_tags_to_resources`. */
  method SplitByApi(resourceArns: seq<string>) returns (serviceSpecificArns: seq<string>, resourceGroupsArns: seq<string>)
    ensures (serviceSpecificArns, resourceGroupsArns) == Route(resourceArns)
  {
    resourceGroupsArns, serviceSpecificArns := [], [];
    for i := 0 to |resourceArns|
      invariant (serviceSpecificArns, resourceGroupsArns) == Route(resourceArns[..i])
    {
      assert resourceArns[..i + 1][..i] == resourceArns[..i];
      var arn := resourceArns[i];
      var service := ServiceOf(arn);
      if service.Some? && service.value in UNSUPPORTED_SERVICES {
        serviceSpecificArns := serviceSpecificArns + [arn];
      } else {
        resourceGroupsArns := resourceGroupsArns + [arn];
      }
    }
    assert resourceArns[..|resourceArns|] == resourceArns;
  }

  /** The loop over the service-specific ARNs: one dedicated call each. */
  method TagOneByOne(serviceSpecificArns: seq<string>, tags: TagMap, aws: Aws) returns (run: Run)
    ensures run == DedicatedPhase(serviceSpecificArns, tags, aws)
  {
    var totalSuccessCount := 0;
    var totalFailed: FailureMap := map[];
    var requests: seq<Request> := [];
    for i := 0 to |serviceSpecificArns|
      invariant Run(totalSuccessCount, totalFailed, requests, false) == DedicatedPhase(serviceSpecificArns[..i], tags, aws)
    {
      assert serviceSpecificArns[..i + 1][..i] == serviceSpecificArns[..i];
      var arn := serviceSpecificArns[i];
      var service := ServiceOf(arn);
      var ok, calls := TagWithServiceApi(arn, tags, service, aws);
      requests := requests + calls;
      if ok {
        totalSuccessCount := totalSuccessCount + 1;
      } else {
        totalFailed := totalFailed[arn := ServiceApiFailure(service)];
      }
    }
    assert serviceSpecificArns[..|serviceSpecificArns|] == serviceSpecificArns;
    run := Run(totalSuccessCount, totalFailed, requests, false);
  }

  /** Marking one more ARN of the batch. */
  lemma MarkFailedNext(failed: FailureMap, batch: seq<string>, k: nat, failure: Failure)
    requires k < |batch|
    ensures MarkFailed(failed, batch[..k + 1], failure) == MarkFailed(failed, batch[..k], failure)[batch[k] := failure]
  {
    assert forall a :: a in batch[..k + 1] <==> a in batch[..k] || a == batch[k];
  }

  /** The loop that marks every ARN of a batch with the error of the whole call. */
  method MarkBatchFailed(totalFailed: FailureMap, batchArns: seq<string>, failure: Failure) returns (marked: FailureMap)
    ensures marked == MarkFailed(totalFailed, batchArns, failure)
  {
    marked := totalFailed;
    for k := 0 to |batchArns|
      invariant marked == MarkFailed(totalFailed, batchArns[..k], failure)
    {
      MarkFailedNext(totalFailed, batchArns, k, failure);
      marked := marked[batchArns[k] := failure];
    }
    assert batchArns[..|batchArns|] == batchArns;
  }

  /** The body of the batch loop: one `tag_resources` call and the tallies it updates. */
  method TagOneBatch(totalSuccessCount: int, totalFailed: FailureMap, requests: seq<Request>, batchArns: seq<string>, tags: TagMap, aws: Aws)
    returns (next: Run)
    ensures next == BatchStep(Run(totalSuccessCount, totalFailed, requests, false), batchArns, tags, aws)
  {
    var response := aws.tagResources(batchArns, tags);
    var sent := requests + [TagResources(batchArns, tags)];
    match response {
      case Returned(batchFailed) =>
        next := Run(totalSuccessCount + (|batchArns| - |batchFailed|), totalFailed + batchFailed, sent, false);
      case BulkClientError(errorCode, errorMessage) =>
        var marked := MarkBatchFailed(totalFailed, batchArns, Failure(errorCode, errorMessage));
        next := Run(totalSuccessCount, marked, sent, false);
      case BulkRaised(_) =>
        next := Run(totalSuccessCount, totalFailed, sent, true);
    }
  }

  /** The loop over the batches, stopping at an exception other than `ClientError`. */
  method TagInBatches(batches: seq<seq<string>>, start: Run, tags: TagMap, aws: Aws) returns (run: Run)
    requires !start.aborted
    ensures run == BulkPhase(batches, start, tags, aws)
  {
    var totalSuccessCount, totalFailed, requests := start.successCount, start.failed, start.requests;
    for j := 0 to |batches|
      invariant Run(totalSuccessCount, totalFailed, requests, false) == BulkPhase(batches[..j], start, tags, aws)
    {
      assert batches[..j + 1][..j] == batches[..j];
      var next := TagOneBatch(totalSuccessCount, totalFailed, requests, batches[j], tags, aws);
      if next.aborted {
        assert batches == batches[..j + 1] + batches[j + 1..];
        BulkPhaseAppend(batches[..j + 1], batches[j + 1..], start, tags, aws);
        BulkPhaseAborted(batches[j + 1..], next, tags, aws);
        return next;
      }
      totalSuccessCount, totalFailed, requests := next.successCount, next.failed, next.requests;
    }
    assert batches[..|batches|] == batches;
    run := Run(totalSuccessCount, totalFailed, requests, false);
  }

  /**
   * `apply_tags_to_resources`: returns whether every ARN was tagged, with
   * the run that decided it (counts, failures and the calls made).
   */
  method ApplyTagsToResources(resourceArns: seq<string>, tags: TagMap, aws: Aws)
    returns (success: bool, run: Run)
    ensures run == TagRun(resourceArns, tags, aws)
    ensures success <==> Succeeded(run)
  {
    var serviceSpecificArns, resourceGroupsArns := SplitByApi(resourceArns);
    run := TagOneByOne(serviceSpecificArns, tags, aws);
    if resourceGroupsArns != [] {
      var batches := Batches(resourceGroupsArns);
      run := TagInBatches(batches, run, tags, aws);
    } else {
      assert Batches(resourceGroupsArns) == [];
    }
    success := !run.aborted && |run.failed| == 0;
  }

  /** The service-specific ARNs leave no failure exactly when every one of their calls succeeds. */
  lemma {:induction false} DedicatedPhaseClean(arns: seq<string>, tags: TagMap, aws: Aws)
    ensures DedicatedPhase(arns, tags, aws).failed == map[]
        <==> forall a :: a in arns ==> ServiceApiCall(a, tags, ServiceOf(a), aws).ok
  {
    if arns != [] {
      var init, arn := arns[..|arns| - 1], arns[|arns| - 1];
      DedicatedPhaseClean(init, tags, aws);
      assert arns == init + [arn];
      if !ServiceApiCall(arn, tags, ServiceOf(arn), aws).ok {
        assert arn in DedicatedPhase(arns, tags, aws).failed;
      }
    }
  }

  /**
   * Non-empty batches leave the run successful exactly when it was so
   * before and every batch call returns an empty failure map.
   */
  lemma {:induction false} BulkPhaseClean(batches: seq<seq<string>>, run: Run, tags: TagMap, aws: Aws)
    requires forall k :: 0 <= k < |batches| ==> batches[k] != []
    ensures Succeeded(BulkPhase(batches, run, tags, aws))
        <==> Succeeded(run) && forall b :: b in batches ==> aws.tagResources(b, tags) == Returned(map[])
  {
    if batches != [] {
      var init, batch := batches[..|batches| - 1], batches[|batches| - 1];
      BulkPhaseClean(init, run, tags, aws);
      assert batches == init + [batch];
      var prev := BulkPhase(init, run, tags, aws);
      var next := BulkPhase(batches, run, tags, aws);
      if !prev.aborted {
        match aws.tagResources(batch, tags)
        case Returned(failedHere) =>
          assert next.failed.Keys == prev.failed.Keys + failedHere.Keys;
        case BulkClientError(_, _) =>
          assert batch[0] in next.failed;
        case BulkRaised(_) =>
      }
    }
  }

  /**
   * `apply_tags_to_resources` returns True exactly when every dedicated
   * call succeeds and every bulk batch returns an empty failure map.
   */
  lemma TagRunSucceeds(arns: seq<string>, tags: TagMap, aws: Aws)
    ensures Succeeded(TagRun(arns, tags, aws))
        <==> ((forall a :: a in arns && NeedsServiceApi(a) ==> ServiceApiCall(a, tags, ServiceOf(a), aws).ok)
              && (forall b :: b in Batches(Route(arns).1) ==> aws.tagResources(b, tags) == Returned(map[])))
  {
    var routed := Route(arns);
    RouteSides(arns);
    BatchSizes(routed.1);
    DedicatedPhaseClean(routed.0, tags, aws);
    BulkPhaseClean(Batches(routed.1), DedicatedPhase(routed.0, tags, aws), tags, aws);
  }

  /** The calls of the bulk phase: one `tag_resources` per batch, in order, each with the whole tag map. */
  function BulkRequests(batches: seq<seq<string>>, tags: TagMap): seq<Request> {
    seq(|batches|, k requires 0 <= k < |batches| => TagResources(batches[k], tags))
  }

  /** A bulk phase that runs to the end calls `tag_resources` once per batch, in order. */
  lemma {:induction false} BulkPhaseRequests(batches: seq<seq<string>>, run: Run, tags: TagMap, aws: Aws)
    requires !BulkPhase(batches, run, tags, aws).aborted
    ensures BulkPhase(batches, run, tags, aws).requests == run.requests + BulkRequests(batches, tags)
  {
    if batches == [] {
      assert run.requests + [] == run.requests;
    } else {
      var init := batches[..|batches| - 1];
      BulkPhaseRequests(init, run, tags, aws);
      assert BulkRequests(batches, tags) == BulkRequests(init, tags) + [TagResources(batches[|batches| - 1], tags)];
    }
  }

  /**
   * A run that is not ended by an exception makes the dedicated calls, then
   * sends every bulk ARN exactly once, in input order, in batches of at
   * most twenty.
   */
  lemma TagRunRequests(arns: seq<string>, tags: TagMap, aws: Aws)
    requires !TagRun(arns, tags, aws).aborted
    ensures var routed := Route(arns);
            TagRun(arns, tags, aws).requests
              == DedicatedPhase(routed.0, tags, aws).requests + BulkRequests(Batches(routed.1), tags)
    ensures Concat(Batches(Route(arns).1)) == Route(arns).1
  {
    var routed := Route(arns);
    BulkPhaseRequests(Batches(routed.1), DedicatedPhase(routed.0, tags, aws), tags, aws);
    BatchesConcat(routed.1);
  }

  /** No ARN occurs twice. */
  ghost predicate Distinct(xs: seq<string>) {
    forall x :: multiset(xs)[x] <= 1
  }

  /** The ARNs of a list, as a set. */
  function Elements(xs: seq<string>): set<string> {
    set a | a in xs
  }

  /** The two parts of a list without repeats have none and share no ARN. */
  lemma DistinctParts(p: seq<string>, q: seq<string>)
    requires Distinct(p + q)
    ensures Distinct(p) && Distinct(q) && Elements(p) !! Elements(q)
  {
    assert multiset(p + q) == multiset(p) + multiset(q);
    forall x
      ensures multiset(p)[x] <= 1 && multiset(q)[x] <= 1
    {
      assert multiset(p + q)[x] == multiset(p)[x] + multiset(q)[x];
    }
    forall x | x in Elements(p)
      ensures x !in Elements(q)
    {
      assert multiset(q)[x] == 0 by {
        assert x in multiset(p);
        assert multiset(p + q)[x] == multiset(p)[x] + multiset(q)[x];
      }
    }
  }

  /** A list without repeats has as many ARNs as elements. */
  lemma {:induction false} DistinctSize(xs: seq<string>)
    requires Distinct(xs)
    ensures |Elements(xs)| == |xs|
  {
    if xs != [] {
      var init, x := xs[..|xs| - 1], xs[|xs| - 1];
      assert xs == init + [x];
      DistinctParts(init, [x]);
      DistinctSize(init);
      assert Elements(xs) == Elements(init) + {x};
    }
  }

  /**
   * With distinct ARNs, the service-specific phase counts every ARN once:
   * as a success or as a failure.
   */
  lemma {:induction false} DedicatedAccounting(arns: seq<string>, tags: TagMap, aws: Aws)
    requires Distinct(arns)
    ensures DedicatedPhase(arns, tags, aws).failed.Keys <= Elements(arns)
    ensures DedicatedPhase(arns, tags, aws).successCount + |DedicatedPhase(arns, tags, aws).failed| == |arns|
  {
    if arns != [] {
      var init, arn := arns[..|arns| - 1], arns[|arns| - 1];
      assert arns == init + [arn];
      DistinctParts(init, [arn]);
      DedicatedAccounting(init, tags, aws);
      assert Elements(arns) == Elements(init) + {arn};
    }
  }

  /** Every failure map a batch call returns names only ARNs of that batch. */
  predicate FailuresWithinBatches(batches: seq<seq<string>>, tags: TagMap, aws: Aws) {
    forall b :: b in batches && aws.tagResources(b, tags).Returned? ==>
      aws.tagResources(b, tags).failedResources.Keys <= Elements(b)
  }

  /**
   * One batch of fresh, distinct ARNs whose failure map stays within the
   * batch: each of its ARNs is counted once, as a success or a failure.
   */
  lemma BatchAccounting(run: Run, seen: set<string>, batch: seq<string>, tags: TagMap, aws: Aws)
    requires !run.aborted
    requires seen !! Elements(batch) && |Elements(batch)| == |batch|
    requires aws.tagResources(batch, tags).Returned? ==>
      aws.tagResources(batch, tags).failedResources.Keys <= Elements(batch)
    requires run.failed.Keys <= seen && run.successCount + |run.failed| == |seen|
    ensures var next := BatchStep(run, batch, tags, aws);
            !next.aborted ==>
              next.failed.Keys <= seen + Elements(batch)
              && next.successCount + |next.failed| == |seen| + |batch|
  {
    match aws.tagResources(batch, tags)
    case Returned(failedHere) =>
      DisjointMergeSize(run.failed, failedHere);
    case BulkClientError(code, message) =>
      MarkFailedSize(run.failed, batch, Failure(code, message));
    case BulkRaised(_) =>
  }

  /** Merging maps with disjoint keys adds their sizes. */
  lemma DisjointMergeSize(failed: FailureMap, more: FailureMap)
    requires failed.Keys !! more.Keys
    ensures (failed + more).Keys == failed.Keys + more.Keys
    ensures |failed + more| == |failed| + |more|
  {
    assert (failed + more).Keys == failed.Keys + more.Keys;
    assert |failed + more| == |(failed + more).Keys|;
  }

  /** Marking the ARNs of a batch that none of the failures names adds the batch's ARNs to the count. */
  lemma MarkFailedSize(failed: FailureMap, batch: seq<string>, failure: Failure)
    requires failed.Keys !! Elements(batch)
    ensures |MarkFailed(failed, batch, failure)| == |failed| + |Elements(batch)|
  {
    var marked := MarkFailed(failed, batch, failure);
    assert |marked| == |marked.Keys| == |failed.Keys| + |Elements(batch)|;
  }

  /**
   * With distinct ARNs and failure maps within their batches, the bulk
   * phase counts every ARN of the batches once, after the `done` ARNs the
   * run had already counted.
   */
  lemma {:induction false} BulkAccounting(batches: seq<seq<string>>, done: seq<string>, run: Run, tags: TagMap, aws: Aws)
    requires Distinct(done + Concat(batches))
    requires FailuresWithinBatches(batches, tags, aws)
    requires run.failed.Keys <= Elements(done) && run.successCount + |run.failed| == |done|
    ensures var next := BulkPhase(batches, run, tags, aws);
            !next.aborted ==>
              next.failed.Keys <= Elements(done + Concat(batches))
              && next.successCount + |next.failed| == |done| + |Concat(batches)|
  {
    if batches != [] {
      var init, batch := batches[..|batches| - 1], batches[|batches| - 1];
      var seen := done + Concat(init);
      ConcatLast(batches);
      assert done + Concat(batches) == seen + batch;
      DistinctParts(seen, batch);
      DistinctSize(batch);
      DistinctSize(seen);
      assert Elements(seen + batch) == Elements(seen) + Elements(batch);
      assert FailuresWithinBatches(init, tags, aws);
      BulkAccounting(init, done, run, tags, aws);
      var prev := BulkPhase(init, run, tags, aws);
      if !prev.aborted {
        assert batch in batches;
        BatchAccounting(prev, Elements(seen), batch, tags, aws);
      }
    }
  }

  /** The two routed lists together hold the input's ARNs, each as often as the input. */
  lemma RouteKeepsArns(arns: seq<string>)
    ensures var routed := Route(arns);
            multiset(routed.0 + routed.1) == multiset(arns)
            && |routed.0| + |routed.1| == |arns|
            && Elements(routed.0 + routed.1) == Elements(arns)
  {
    var routed := Route(arns);
    RoutePartition(arns);
    assert multiset(routed.0 + routed.1) == multiset(arns);
    assert |multiset(routed.0 + routed.1)| == |multiset(arns)|;
    forall x
      ensures x in routed.0 + routed.1 <==> x in arns
    {
      assert x in routed.0 + routed.1 <==> x in multiset(routed.0 + routed.1);
    }
  }

  /**
   * A run that was not ended by an exception accounts for `arns`: only
   * they fail, and successes and failures add up to their number.
   */
  predicate CountsEachOnce(run: Run, arns: seq<string>) {
    !run.aborted ==>
      run.failed.Keys <= Elements(arns) && run.successCount + |run.failed| == |arns|
  }

  /** Both phases together, over a service-specific list and a bulk list that share no ARN and repeat none. */
  lemma PhasesAccounting(arns: seq<string>, serviceSpecific: seq<string>, bulk: seq<string>, run: Run, tags: TagMap, aws: Aws)
    requires Distinct(serviceSpecific + bulk)
    requires |serviceSpecific| + |bulk| == |arns| && Elements(serviceSpecific + bulk) == Elements(arns)
    requires FailuresWithinBatches(Batches(bulk), tags, aws)
    requires run == BulkPhase(Batches(bulk), DedicatedPhase(serviceSpecific, tags, aws), tags, aws)
    ensures CountsEachOnce(run, arns)
  {
    BatchesConcat(bulk);
    DistinctParts(serviceSpecific, bulk);
    DedicatedAccounting(serviceSpecific, tags, aws);
    BulkAccounting(Batches(bulk), serviceSpecific, DedicatedPhase(serviceSpecific, tags, aws), tags, aws);
  }

  /** Routing ARNs without repeats gives two lists without repeats, that together hold the input's ARNs. */
  lemma RouteDistinct(arns: seq<string>)
    requires Distinct(arns)
    ensures var routed := Route(arns);
            Distinct(routed.0 + routed.1)
            && |routed.0| + |routed.1| == |arns|
            && Elements(routed.0 + routed.1) == Elements(arns)
  {
    var routed := Route(arns);
    RouteKeepsArns(arns);
    assert Distinct(routed.0 + routed.1) by {
      assert multiset(routed.0 + routed.1) == multiset(arns);
    }
  }

  /**
   * When no ARN is given twice and every bulk failure map names only ARNs
   * of its batch, a run that is not ended by an exception counts every ARN
   * exactly once: the success count and the failure map add up to the
   * number of ARNs, and only given ARNs fail.
   */
  lemma TagRunAccounting(arns: seq<string>, tags: TagMap, aws: Aws)
    requires Distinct(arns)
    requires FailuresWithinBatches(Batches(Route(arns).1), tags, aws)
    ensures CountsEachOnce(TagRun(arns, tags, aws), arns)
  {
    var serviceSpecific, bulk := RoutedRun(arns, tags, aws);
    PhasesAccounting(arns, serviceSpecific, bulk, TagRun(arns, tags, aws), tags, aws);
  }

  /** The two lists a run works through, named, with what routing guarantees about them. */
  lemma RoutedRun(arns: seq<string>, tags: TagMap, aws: Aws) returns (serviceSpecific: seq<string>, bulk: seq<string>)
    requires Distinct(arns)
    ensures Route(arns) == (serviceSpecific, bulk)
    ensures TagRun(arns, tags, aws) == BulkPhase(Batches(bulk), DedicatedPhase(serviceSpecific, tags, aws), tags, aws)
    ensures Distinct(serviceSpecific + bulk)
    ensures |serviceSpecific| + |bulk| == |arns| && Elements(serviceSpecific + bulk) == Elements(arns)
  {
    serviceSpecific, bulk := Route(arns).0, Route(arns).1;
    RouteDistinct(arns);
  }
}
