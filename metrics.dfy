/** The CloudWatch and STS side of the collector, as oracles (`assume_role`,
    `list_metrics`, `get_metric_statistics`), and the two helpers the script builds on
    them: `get_metric_sum` and `discover_nat_ids`. */
module Metrics {
  import opened Basics
  import opened Months

  type AccountId = string
  type Region = string
  type NatId = string

  const NamespaceNat := "AWS/NATGateway"
  const MetricNatUpload := "BytesInFromSource"
  const MetricNatDownload := "BytesInFromDestination"
  const NatGatewayDimension := "NatGatewayId"
  /** `PERIOD`: one datapoint per day. */
  const Period: nat := 86400

  datatype Dimension = Dimension(name: string, value: string)

  /** One entry of a `list_metrics` page: a metric and its dimensions. */
  datatype MetricEntry = MetricEntry(dimensions: seq<Dimension>)

  /** One `get_metric_statistics` request for the `Sum` statistic. */
  datatype StatQuery = StatQuery(
    namespace: string, metricName: string, dimensions: seq<Dimension>,
    start: Instant, end: Instant, period: nat)

  /** What `get_metric_statistics` did: raised, or answered with a response whose
      `Datapoints` key may be missing; each datapoint is its `Sum`, in bytes. */
  datatype StatReply = StatRaised | StatAnswer(datapoints: Option<seq<nat>>)

  /** The AWS services the collector calls, as they answer during one run.
      `assumeRole(a, w)`: `assume_role` for account `a` while collecting window `w`
      returned a session. `listMetrics(a, r, w)`: the pages the `list_metrics` paginator
      yields for NAT upload metrics in account `a`, region `r`, while window `w` is being
      collected, or `Raised` when paging fails (throttling, a denied call); nothing in
      `discover_nat_ids` catches that. `statistics(a, r, q)`: the reply to `q`. */
  datatype Aws = Aws(
    assumeRole: (AccountId, Window) -> bool,
    listMetrics: (AccountId, Region, Window) -> Outcome<seq<seq<MetricEntry>>>,
    statistics: (AccountId, Region, StatQuery) -> StatReply)

  /** The request the collector makes for one NAT gateway, metric and window. */
  function NatQuery(metricName: string, gateway: NatId, w: Window): StatQuery
  {
    StatQuery(NamespaceNat, metricName, [Dimension(NatGatewayDimension, gateway)], w.start, w.end, Period)
  }

  /** `get_metric_sum(...)`: the sum of the datapoints' `Sum`s; 0 when the call raises or
      the response has no `Datapoints`. The result is zero exactly when the call failed,
      there were no datapoints, or every datapoint was zero. */
  function GetMetricSum(reply: StatReply): (r: nat)
    ensures r == 0 <==>
      (reply.StatRaised? || reply.datapoints.None?
       || forall i :: 0 <= i < |reply.datapoints.value| ==> reply.datapoints.value[i] == 0)
    ensures r > 0 ==> reply.StatAnswer? && reply.datapoints.Some?
    ensures reply.StatAnswer? && reply.datapoints.Some? ==> r == Sum(reply.datapoints.value)
  {
    match reply
    case StatRaised => 0
    case StatAnswer(dps) =>
      match dps
      case None => 0
      case Some(sums) => SumZero(sums); Sum(sums)
  }

  // ---------------------------------------------------------------- discover_nat_ids

  /** The dimensions of a page's metrics, in order. */
  function EntryDimensions(entries: seq<MetricEntry>): seq<Dimension>
  {
    if entries == [] then []
    else EntryDimensions(entries[..|entries| - 1]) + entries[|entries| - 1].dimensions
  }

  /** The dimensions of every metric on every page, in order. */
  function PageDimensions(pages: seq<seq<MetricEntry>>): seq<Dimension>
  {
    if pages == [] then []
    else PageDimensions(pages[..|pages| - 1]) + EntryDimensions(pages[|pages| - 1])
  }

  /** The `NatGatewayId` values among `ds`, each once, in order of first appearance. */
  function NatIdsIn(ds: seq<Dimension>): seq<NatId>
  {
    if ds == [] then []
    else
      var ids := NatIdsIn(ds[..|ds| - 1]);
      var d := ds[|ds| - 1];
      if d.name == NatGatewayDimension && d.value !in ids then ids + [d.value] else ids
  }

  /** The discovered IDs are duplicate-free, and are exactly the values of the
      `NatGatewayId` dimensions seen. */
  lemma {:induction false} NatIdsInSpec(ds: seq<Dimension>)
    ensures NoDuplicates(NatIdsIn(ds))
    ensures forall x :: x in NatIdsIn(ds) <==>
      exists i :: 0 <= i < |ds| && ds[i].name == NatGatewayDimension && ds[i].value == x
  {
    if ds != [] {
      var init := ds[..|ds| - 1];
      NatIdsInSpec(init);
      assert forall i :: 0 <= i < |init| ==> init[i] == ds[i];
      forall x | x in NatIdsIn(ds)
        ensures exists i :: 0 <= i < |ds| && ds[i].name == NatGatewayDimension && ds[i].value == x
      {
        if x !in NatIdsIn(init) {
          assert ds[|ds| - 1].value == x;
        }
      }
    }
  }

  /** `discover_nat_ids(cw)`: walks every page, metric and dimension and collects the
      `NatGatewayId` values in a set. The list it returns has no duplicates and holds
      exactly the gateway IDs the pages mention. */
  method DiscoverNatIds(pages: seq<seq<MetricEntry>>) returns (ids: seq<NatId>)
    ensures ids == NatIdsIn(PageDimensions(pages))
    ensures NoDuplicates(ids)
    ensures forall x :: x in ids <==>
      (exists i :: 0 <= i < |PageDimensions(pages)|
        && PageDimensions(pages)[i].name == NatGatewayDimension && PageDimensions(pages)[i].value == x)
  {
    var seen: set<NatId> := {};
    ids := [];
    ghost var done: seq<Dimension> := [];
    for p := 0 to |pages|
      invariant done == PageDimensions(pages[..p])
      invariant ids == NatIdsIn(done) && seen == set x | x in ids
    {
      var page := pages[p];
      ghost var pageDone: seq<Dimension> := [];
      assert done + pageDone == done;
      for m := 0 to |page|
        invariant pageDone == EntryDimensions(page[..m])
        invariant ids == NatIdsIn(done + pageDone) && seen == set x | x in ids
      {
        var dims := page[m].dimensions;
        assert done + pageDone + dims[..0] == done + pageDone;
        for k := 0 to |dims|
          invariant ids == NatIdsIn(done + pageDone + dims[..k]) && seen == set x | x in ids
        {
          var d := dims[k];
          assert (done + pageDone + dims[..k + 1])[..|done + pageDone + dims[..k]|] == done + pageDone + dims[..k];
          if d.name == NatGatewayDimension {
            if d.value !in seen {
              ids := ids + [d.value];
            }
            seen := seen + {d.value};
          }
        }
        assert dims[..|dims|] == dims;
        assert page[..m + 1][..m] == page[..m];
        assert done + pageDone + dims == done + (pageDone + dims);
        pageDone := pageDone + dims;
      }
      assert page[..|page|] == page;
      assert pages[..p + 1][..p] == pages[..p];
      done := done + pageDone;
    }
    assert pages[..|pages|] == pages;
    NatIdsInSpec(done);
  }
}
