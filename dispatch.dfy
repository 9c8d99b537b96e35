/**
 * How `apply_tags_to_resources` in apply_tags.py splits its ARNs: the
 * services the Resource Groups Tagging API does not handle go one by one
 * to their own API, the rest go to the bulk API in consecutive batches of
 * at most twenty.
 */
module Dispatch {
  import opened Wrappers
  import opened ArnParser

  /** Services that the Resource Groups Tagging API does not tag. */
  const UNSUPPORTED_SERVICES: set<string> := {"s3", "appconfig", "route53resolver"}

  /** The most ARNs one `tag_resources` call takes. */
  const BATCH_SIZE: nat := 20

  /** `service in unsupported_services`, where a missing service (None) is in no set. */
  predicate NeedsServiceApi(arn: string) {
    var service := ServiceOf(arn);
    service.Some? && service.value in UNSUPPORTED_SERVICES
  }

  /**
   * The two lists the routing loop appends to, in order:
   * (`service_specific_arns`, `resource_groups_arns`).
   */
  function Route(arns: seq<string>): (seq<string>, seq<string>) {
    if arns == [] then ([], [])
    else
      var routed := Route(arns[..|arns| - 1]);
      var arn := arns[|arns| - 1];
      if NeedsServiceApi(arn) then (routed.0 + [arn], routed.1) else (routed.0, routed.1 + [arn])
  }

  /** Every ARN lands in exactly one of the two lists, as often as it occurs in the input. */
  lemma {:induction false} RoutePartition(arns: seq<string>)
    ensures multiset(Route(arns).0) + multiset(Route(arns).1) == multiset(arns)
  {
    if arns != [] {
      var init := arns[..|arns| - 1];
      RoutePartition(init);
      assert arns == init + [arns[|arns| - 1]];
    }
  }

  /** The service-specific list holds exactly the input ARNs whose service is s3, appconfig or route53resolver. */
  lemma {:induction false} RouteSides(arns: seq<string>)
    ensures forall a :: a in Route(arns).0 <==> a in arns && NeedsServiceApi(a)
    ensures forall a :: a in Route(arns).1 <==> a in arns && !NeedsServiceApi(a)
  {
    if arns != [] {
      var init := arns[..|arns| - 1];
      RouteSides(init);
      assert arns == init + [arns[|arns| - 1]];
    }
  }

  /**
   * Routing a list made of two parts routes each part on its own and
   * concatenates the results: relative input order is kept in both lists.
   */
  lemma {:induction false} RouteAppend(a: seq<string>, b: seq<string>)
    ensures Route(a + b) == (Route(a).0 + Route(b).0, Route(a).1 + Route(b).1)
    decreases |b|
  {
    if b == [] {
      assert a + b == a;
      assert Route(a).0 + [] == Route(a).0 && Route(a).1 + [] == Route(a).1;
    } else {
      var init, arn := b[..|b| - 1], b[|b| - 1];
      assert (a + b)[..|a + b| - 1] == a + init;
      assert (a + b)[|a + b| - 1] == arn;
      RouteAppend(a, init);
      var left, right := Route(a), Route(init);
      if NeedsServiceApi(arn) {
        assert Route(a + b).0 == (left.0 + right.0) + [arn] == left.0 + (right.0 + [arn]);
      } else {
        assert Route(a + b).1 == (left.1 + right.1) + [arn] == left.1 + (right.1 + [arn]);
      }
    }
  }

  /** An ARN without a service field goes to the bulk API. */
  lemma RouteNoService(arn: string)
    requires ServiceOf(arn) == None
    ensures Route([arn]) == ([], [arn])
  {
    assert !NeedsServiceApi(arn);
    assert [arn][..0] == [];
    assert Route([arn][..0]) == ([], []);
    assert Route([arn]).1 == [] + [arn] == [arn];
  }

  function Min(a: int, b: int): int {
    if a <= b then a else b
  }

  /** `len(range(0, n, BATCH_SIZE))`. */
  function BatchCount(n: nat): nat {
    (n + BATCH_SIZE - 1) / BATCH_SIZE
  }

  /** `[xs[i:i + BATCH_SIZE] for i in range(0, len(xs), BATCH_SIZE)]`. */
  function Batches(xs: seq<string>): seq<seq<string>> {
    seq(BatchCount(|xs|), k requires 0 <= k < BatchCount(|xs|) =>
      xs[k * BATCH_SIZE .. Min(k * BATCH_SIZE + BATCH_SIZE, |xs|)])
  }

  /** The batches laid end to end. */
  function Concat(batches: seq<seq<string>>): seq<string> {
    if batches == [] then [] else batches[0] + Concat(batches[1..])
  }

  /** The last batch comes last. */
  lemma {:induction false} ConcatLast(batches: seq<seq<string>>)
    requires batches != []
    ensures Concat(batches) == Concat(batches[..|batches| - 1]) + batches[|batches| - 1]
  {
    var init := batches[..|batches| - 1];
    if |batches| == 1 {
      assert Concat(batches) == batches[0] + Concat([]);
    } else {
      var tail := batches[1..];
      ConcatLast(tail);
      assert tail[..|tail| - 1] == init[1..];
      assert tail[|tail| - 1] == batches[|batches| - 1];
      assert Concat(batches) == batches[0] + Concat(tail);
      assert Concat(init) == init[0] + Concat(init[1..]);
    }
  }

  /**
   * There are ceil(n / 20) batches; each holds between 1 and 20 ARNs and
   * every one but the last holds exactly 20.
   */
  lemma BatchSizes(xs: seq<string>)
    ensures (|Batches(xs)| - 1) * BATCH_SIZE < |xs| <= |Batches(xs)| * BATCH_SIZE
    ensures forall k :: 0 <= k < |Batches(xs)| ==> 1 <= |Batches(xs)[k]| <= BATCH_SIZE
    ensures forall k :: 0 <= k < |Batches(xs)| - 1 ==> |Batches(xs)[k]| == BATCH_SIZE
  {
  }

  /** After the first 20 ARNs, the batches are those of the rest. */
  lemma BatchesCons(xs: seq<string>)
    requires |xs| > BATCH_SIZE
    ensures Batches(xs) == [xs[..BATCH_SIZE]] + Batches(xs[BATCH_SIZE..])
  {
    var rest := xs[BATCH_SIZE..];
    assert BatchCount(|xs|) == BatchCount(|rest|) + 1;
    forall k | 1 <= k < BatchCount(|xs|)
      ensures Batches(xs)[k] == Batches(rest)[k - 1]
    {
      assert (k - 1) * BATCH_SIZE + BATCH_SIZE == k * BATCH_SIZE;
    }
  }

  /** Laying the batches end to end gives back the list. */
  lemma {:induction false} BatchesConcat(xs: seq<string>)
    ensures Concat(Batches(xs)) == xs
    decreases |xs|
  {
    if |xs| > BATCH_SIZE {
      BatchesCons(xs);
      BatchesConcat(xs[BATCH_SIZE..]);
      assert xs == xs[..BATCH_SIZE] + xs[BATCH_SIZE..];
    } else if xs != [] {
      assert BatchCount(|xs|) == 1;
      assert Batches(xs)[0] == xs;
      assert Batches(xs) == [xs];
      assert Concat([xs]) == xs + Concat([]);
    }
  }

  /** 45 ARNs are sent as batches of 20, 20 and 5. */
  lemma FortyFiveArnsExample(xs: seq<string>)
    requires |xs| == 45
    ensures |Batches(xs)| == 3
    ensures |Batches(xs)[0]| == 20 && |Batches(xs)[1]| == 20 && |Batches(xs)[2]| == 5
  {
  }
}
